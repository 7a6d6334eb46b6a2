/**
  What rebuildHosts and rebuildListenerHosts do once the holders are known:
  mark the hosts each Ingress holds, warn about VirtualServers whose
  listeners are misconfigured, collect the problems of the configurations,
  and make the changes refer to the latest configurations.
 */
module Rebuild {
  import opened Wrappers
  import opened Ordering
  import opened Resources
  import opened Arbitration
  import opened Changes
  import opened Builders

  // ---- Configurations stored under their own key with kind ----

  ghost predicate KeyedByKind<P>(s: Holding<P>) {
    forall k :: k in s.resources ==> s.resources[k].GetKeyWithKind() == k
  }

  /** A configuration right after buildHostsAndResources: valid hosts are not yet marked. */
  ghost predicate Built<P>(s: Holding<P>) {
    && KeyedByKind(s)
    && forall k :: k in s.resources && s.resources[k].IngressConfiguration? ==> s.resources[k].validHosts == map[]
  }

  lemma AddWarningKeepsKind(r: Resource, warning: string)
    ensures r.AddWarning(warning).GetKeyWithKind() == r.GetKeyWithKind()
    ensures r.IngressConfiguration? ==> r.AddWarning(warning).IngressConfiguration? && r.AddWarning(warning).validHosts == r.validHosts
  {
  }

  /** A claim changes nothing but warnings. */
  lemma ClaimWarnsOnly<P>(s: Holding<P>, place: P, key: string, warning: string)
    requires Consistent(s) && key in s.resources
    ensures forall k :: k in s.resources ==>
      Claim(s, place, key, warning).resources[k].(warnings := s.resources[k].warnings) == s.resources[k]
  {
  }

  lemma ClaimBuilt<P>(s: Holding<P>, place: P, key: string, warning: string)
    requires Consistent(s) && key in s.resources && Built(s)
    ensures Built(Claim(s, place, key, warning))
  {
    if place in s.holders {
      AddWarningKeepsKind(s.resources[s.holders[place]], warning);
      AddWarningKeepsKind(s.resources[key], warning);
    }
  }

  lemma {:induction false} ClaimHostsBuilt(s: Holding<string>, hosts: seq<string>, key: string)
    requires Consistent(s) && key in s.resources && Built(s)
    ensures Built(ClaimHosts(s, hosts, key))
  {
    if |hosts| > 0 {
      ClaimHostsBuilt(s, hosts[..|hosts| - 1], key);
      ClaimBuilt(ClaimHosts(s, hosts[..|hosts| - 1], key), hosts[|hosts| - 1], key, HostTakenWarning(hosts[|hosts| - 1]));
    }
  }

  lemma IngressStepBuilt(s: Holding<string>, ingresses: map<string, Ingress>, ing: Ingress)
    requires Consistent(s) && Built(s)
    ensures Built(IngressStep(s, ingresses, ing))
  {
    if !IsMinion(ing) {
      var resource := IngressResource(ingresses, ing);
      assert Built(Register(s, resource));
      ClaimHostsBuilt(Register(s, resource), RuleHosts(ing), resource.GetKeyWithKind());
    }
  }

  lemma {:induction false} IngressPhaseBuilt(s: Holding<string>, ingresses: map<string, Ingress>, keys: seq<string>)
    requires Consistent(s) && Built(s)
    ensures Built(IngressPhase(s, ingresses, keys))
  {
    if |keys| > 0 {
      IngressPhaseBuilt(s, ingresses, keys[..|keys| - 1]);
      if keys[|keys| - 1] in ingresses {
        IngressStepBuilt(IngressPhase(s, ingresses, keys[..|keys| - 1]), ingresses, ingresses[keys[|keys| - 1]]);
      }
    }
  }

  lemma {:induction false} VirtualServerPhaseBuilt(s: Holding<string>, st: Store, validate: RouteValidator, keys: seq<string>)
    requires Consistent(s) && Built(s)
    ensures Built(VirtualServerPhase(s, st, validate, keys))
  {
    if |keys| > 0 {
      var prev := VirtualServerPhase(s, st, validate, keys[..|keys| - 1]);
      VirtualServerPhaseBuilt(s, st, validate, keys[..|keys| - 1]);
      var key := keys[|keys| - 1];
      if key in st.virtualServers {
        var vs := st.virtualServers[key];
        var resource := VirtualServerResource(st, validate, vs);
        ClaimBuilt(Register(prev, resource), vs.host, resource.GetKeyWithKind(), HostTakenWarning(vs.host));
      }
    }
  }

  lemma {:induction false} TransportServerPhaseBuilt(s: Holding<string>, transportServers: map<string, TransportServer>, keys: seq<string>)
    requires Consistent(s) && Built(s)
    ensures Built(TransportServerPhase(s, transportServers, keys))
  {
    if |keys| > 0 {
      var prev := TransportServerPhase(s, transportServers, keys[..|keys| - 1]);
      TransportServerPhaseBuilt(s, transportServers, keys[..|keys| - 1]);
      var key := keys[|keys| - 1];
      if key in transportServers && IsTLSPassthrough(transportServers[key]) {
        var ts := transportServers[key];
        var resource := NewTransportServerConfiguration(ts);
        ClaimBuilt(Register(prev, resource), ts.host, resource.GetKeyWithKind(), HostTakenWarning(ts.host));
      }
    }
  }

  /** buildHostsAndResources stores every configuration under its own key with kind. */
  lemma HostsAndResourcesBuilt(st: Store, tlsPassthrough: bool, validate: RouteValidator)
    ensures Built(HostsAndResources(st, tlsPassthrough, validate))
  {
    var s0: Holding<string> := Holding(map[], map[]);
    IngressPhaseBuilt(s0, st.ingresses, SortedStrings(st.ingresses.Keys));
    var s1 := IngressPhase(s0, st.ingresses, SortedStrings(st.ingresses.Keys));
    VirtualServerPhaseBuilt(s1, st, validate, SortedStrings(st.virtualServers.Keys));
    if tlsPassthrough {
      TransportServerPhaseBuilt(VirtualServerPhase(s1, st, validate, SortedStrings(st.virtualServers.Keys)), st.transportServers, SortedStrings(st.transportServers.Keys));
    }
  }

  // ---- updateActiveHostsForIngresses ----

  /** Every host of the rules of an Ingress, valid exactly when the Ingress holds it. */
  function ActiveHostsOf(hosts: map<string, Resource>, r: Resource): map<string, bool>
    requires r.IngressConfiguration?
  {
    map h | h in RuleHosts(r.ingress) :: h in hosts && hosts[h].GetKeyWithKind() == r.GetKeyWithKind()
  }

  function WithActiveHosts(hosts: map<string, Resource>, r: Resource): Resource {
    if r.IngressConfiguration? then r.(validHosts := r.validHosts + ActiveHostsOf(hosts, r)) else r
  }

  /** updateActiveHostsForIngresses: the holders stay, Ingress configurations learn which of their hosts they hold. */
  function ActiveHosts(s: Holding<string>): (r: Holding<string>)
    requires Consistent(s)
    ensures Consistent(r) && r.holders == s.holders && r.resources.Keys == s.resources.Keys
  {
    var hosts := Places(s);
    s.(resources := map k | k in s.resources :: WithActiveHosts(hosts, s.resources[k]))
  }

  /** A configuration of `r` is the one of `s` with valid hosts marked: exactly its rule hosts, each true when it holds it. */
  ghost predicate HostsMarked(s: Holding<string>, r: Holding<string>, k: string)
    requires k in s.resources && k in r.resources
  {
    var before, after := s.resources[k], r.resources[k];
    if before.IngressConfiguration? then
      && after.IngressConfiguration?
      && after.(validHosts := map[]) == before
      && (forall h :: h in after.validHosts <==> h in RuleHosts(before.ingress))
      && (forall h :: h in after.validHosts ==> (after.validHosts[h] <==> h in s.holders && s.holders[h] == k))
    else after == before
  }

  /**
    After updateActiveHostsForIngresses an Ingress configuration has one
    valid-host entry per rule host, true exactly when the Ingress holds the
    host; nothing else changes, and every configuration is still under its
    key with kind.
   */
  lemma ActiveHostsProperties(s: Holding<string>)
    requires Consistent(s) && Built(s)
    ensures KeyedByKind(ActiveHosts(s)) && Grows(s, ActiveHosts(s))
    ensures forall k :: k in s.resources ==> HostsMarked(s, ActiveHosts(s), k)
  {
    var r := ActiveHosts(s);
    forall k | k in s.resources
      ensures HostsMarked(s, r, k) && r.resources[k].GetKeyWithKind() == k
      ensures r.resources[k].ObjectMeta() == s.resources[k].ObjectMeta() && r.resources[k].warnings == s.resources[k].warnings
    {
      var before := s.resources[k];
      if before.IngressConfiguration? {
        assert before.validHosts == map[];
        assert r.resources[k].validHosts == ActiveHostsOf(Places(s), before);
      }
    }
  }

  // ---- addWarningsForVirtualServersWithMissConfiguredListeners ----

  /** The first of the checks of a VirtualServer's listeners that fails, as a warning. */
  function ListenerWarning(vs: VirtualServer, hasGlobalConfiguration: bool, listenerMap: map<string, Listener>): Option<string> {
    match vs.listener
    case None => None
    case Some(l) =>
      if !hasGlobalConfiguration then Some("Listeners defined, but no GlobalConfiguration is deployed")
      else if !IsListenerInCorrectBlock(listenerMap, l.http, false) then
        Some("Listener " + l.http + " can't be use in `listener.http` context as SSL is enabled for that listener.")
      else if !IsListenerInCorrectBlock(listenerMap, l.https, true) then
        Some("Listener " + l.https + " can't be use in `listener.https` context as SSL is not enabled for that listener.")
      else if l.http != "" && l.http !in listenerMap then Some("Listener " + l.http + " is not defined in GlobalConfiguration")
      else if l.https != "" && l.https !in listenerMap then Some("Listener " + l.https + " is not defined in GlobalConfiguration")
      else None
  }

  /**
    A VirtualServer gets no listener warning exactly when it names no
    listeners, or a GlobalConfiguration is deployed and every listener it
    names is defined there, without SSL for HTTP and with SSL for HTTPS.
   */
  lemma ListenerWarningProperties(vs: VirtualServer, hasGlobalConfiguration: bool, listenerMap: map<string, Listener>)
    ensures ListenerWarning(vs, hasGlobalConfiguration, listenerMap).None? <==>
      || vs.listener.None?
      || (&& hasGlobalConfiguration
          && (vs.listener.value.http != "" ==> vs.listener.value.http in listenerMap && !listenerMap[vs.listener.value.http].ssl)
          && (vs.listener.value.https != "" ==> vs.listener.value.https in listenerMap && listenerMap[vs.listener.value.https].ssl)
          && (vs.listener.value.http == "" && "" in listenerMap ==> !listenerMap[""].ssl)
          && (vs.listener.value.https == "" && "" in listenerMap ==> listenerMap[""].ssl))
  {
  }

  /**
    One step of the loop as written: the holder of the VirtualServer's host
    gets the warning, which is another configuration when the VirtualServer
    lost its host.
   */
  function WarnHostHolder(s: Holding<string>, hasGlobalConfiguration: bool, listenerMap: map<string, Listener>, key: string): (r: Holding<string>)
    requires Consistent(s)
    ensures Consistent(r) && r.holders == s.holders && r.resources.Keys == s.resources.Keys
  {
    if key in s.resources && s.resources[key].VirtualServerConfiguration? then
      var vs := s.resources[key].virtualServer;
      match ListenerWarning(vs, hasGlobalConfiguration, listenerMap)
      case None => s
      case Some(w) =>
        if vs.host in s.holders then
          var holder := s.holders[vs.host];
          s.(resources := s.resources[holder := s.resources[holder].AddWarning(w)])
        else s
    else s
  }

  /** One step of the loop as intended: the VirtualServer with misconfigured listeners gets the warning. */
  function WarnVirtualServer(s: Holding<string>, hasGlobalConfiguration: bool, listenerMap: map<string, Listener>, key: string): (r: Holding<string>)
    requires Consistent(s)
    ensures Consistent(r) && r.holders == s.holders && r.resources.Keys == s.resources.Keys
    ensures forall k :: k in s.resources && k != key ==> r.resources[k] == s.resources[k]
  {
    if key in s.resources && s.resources[key].VirtualServerConfiguration? then
      match ListenerWarning(s.resources[key].virtualServer, hasGlobalConfiguration, listenerMap)
      case None => s
      case Some(w) => s.(resources := s.resources[key := s.resources[key].AddWarning(w)])
    else s
  }

  /** addWarningsForVirtualServersWithMissConfiguredListeners as written, over the given keys. */
  function ListenerWarningsAsWritten(s: Holding<string>, hasGlobalConfiguration: bool, listenerMap: map<string, Listener>, keys: seq<string>): (r: Holding<string>)
    requires Consistent(s)
    ensures Consistent(r) && r.resources.Keys == s.resources.Keys
  {
    if |keys| == 0 then s
    else WarnHostHolder(ListenerWarningsAsWritten(s, hasGlobalConfiguration, listenerMap, keys[..|keys| - 1]), hasGlobalConfiguration, listenerMap, keys[|keys| - 1])
  }

  /** addWarningsForVirtualServersWithMissConfiguredListeners as intended, over the given keys. */
  function ListenerWarnings(s: Holding<string>, hasGlobalConfiguration: bool, listenerMap: map<string, Listener>, keys: seq<string>): (r: Holding<string>)
    requires Consistent(s)
    ensures Consistent(r) && r.holders == s.holders && r.resources.Keys == s.resources.Keys
  {
    if |keys| == 0 then s
    else WarnVirtualServer(ListenerWarnings(s, hasGlobalConfiguration, listenerMap, keys[..|keys| - 1]), hasGlobalConfiguration, listenerMap, keys[|keys| - 1])
  }

  /** ListenerWarnings over one more key is one more step. */
  lemma ListenerWarningsStep(s: Holding<string>, hasGlobalConfiguration: bool, listenerMap: map<string, Listener>, keys: seq<string>, i: nat)
    requires Consistent(s) && i < |keys|
    ensures ListenerWarnings(s, hasGlobalConfiguration, listenerMap, keys[..i + 1])
         == WarnVirtualServer(ListenerWarnings(s, hasGlobalConfiguration, listenerMap, keys[..i]), hasGlobalConfiguration, listenerMap, keys[i])
  {
    assert keys[..i + 1][..i] == keys[..i];
  }

  /** What ListenerWarnings makes of the configuration under `k`. */
  function WarnedConfiguration(s: Holding<string>, hasGlobalConfiguration: bool, listenerMap: map<string, Listener>, keys: seq<string>, k: string): Resource
    requires Consistent(s) && k in s.resources
  {
    if k in keys then WarnVirtualServer(s, hasGlobalConfiguration, listenerMap, k).resources[k] else s.resources[k]
  }

  lemma WarnVirtualServerLocal(s: Holding<string>, t: Holding<string>, hasGlobalConfiguration: bool, listenerMap: map<string, Listener>, key: string)
    requires Consistent(s) && Consistent(t) && key in s.resources && key in t.resources && s.resources[key] == t.resources[key]
    ensures WarnVirtualServer(t, hasGlobalConfiguration, listenerMap, key).resources[key] == WarnVirtualServer(s, hasGlobalConfiguration, listenerMap, key).resources[key]
  {
  }

  /**
    Over distinct keys, every VirtualServer under one of them whose listeners
    are misconfigured gets its one warning appended, and nothing else changes.
   */
  lemma WarnedConfigurationStep(s: Holding<string>, prev: Holding<string>, hasGlobalConfiguration: bool, listenerMap: map<string, Listener>, keys: seq<string>, k: string)
    requires Consistent(s) && Consistent(prev) && |keys| > 0 && keys[|keys| - 1] !in keys[..|keys| - 1]
    requires k in s.resources && prev.resources.Keys == s.resources.Keys
    requires forall j :: j in s.resources ==> prev.resources[j] == WarnedConfiguration(s, hasGlobalConfiguration, listenerMap, keys[..|keys| - 1], j)
    ensures WarnVirtualServer(prev, hasGlobalConfiguration, listenerMap, keys[|keys| - 1]).resources[k] == WarnedConfiguration(s, hasGlobalConfiguration, listenerMap, keys, k)
  {
    var key := keys[|keys| - 1];
    if k == key {
      assert prev.resources[k] == s.resources[k];
      WarnVirtualServerLocal(s, prev, hasGlobalConfiguration, listenerMap, key);
    } else {
      assert k in keys <==> k in keys[..|keys| - 1];
    }
  }

  /**
    Over distinct keys, every VirtualServer under one of them whose listeners
    are misconfigured gets its one warning appended, and nothing else changes.
   */
  lemma {:induction false} ListenerWarningsProperties(s: Holding<string>, hasGlobalConfiguration: bool, listenerMap: map<string, Listener>, keys: seq<string>)
    requires Consistent(s) && Distinct(keys)
    ensures ListenerWarnings(s, hasGlobalConfiguration, listenerMap, keys).holders == s.holders
    ensures forall k :: k in s.resources ==>
      ListenerWarnings(s, hasGlobalConfiguration, listenerMap, keys).resources[k] == WarnedConfiguration(s, hasGlobalConfiguration, listenerMap, keys, k)
  {
    if |keys| > 0 {
      var n := |keys| - 1;
      DistinctPrefix(keys);
      ListenerWarningsProperties(s, hasGlobalConfiguration, listenerMap, keys[..n]);
      var prev := ListenerWarnings(s, hasGlobalConfiguration, listenerMap, keys[..n]);
      forall k | k in s.resources
        ensures WarnVirtualServer(prev, hasGlobalConfiguration, listenerMap, keys[n]).resources[k] == WarnedConfiguration(s, hasGlobalConfiguration, listenerMap, keys, k)
      {
        WarnedConfigurationStep(s, prev, hasGlobalConfiguration, listenerMap, keys, k);
      }
    }
  }

  /** `t` is `s` with warnings added and nothing else changed. */
  ghost predicate WarnedOnly(s: Holding<string>, t: Holding<string>) {
    && t.holders == s.holders
    && t.resources.Keys == s.resources.Keys
    && forall k :: k in s.resources ==> t.resources[k].(warnings := s.resources[k].warnings) == s.resources[k]
  }

  lemma {:induction false} ListenerWarningsWarnOnly(s: Holding<string>, hasGlobalConfiguration: bool, listenerMap: map<string, Listener>, keys: seq<string>)
    requires Consistent(s)
    ensures WarnedOnly(s, ListenerWarnings(s, hasGlobalConfiguration, listenerMap, keys))
  {
    if |keys| > 0 {
      ListenerWarningsWarnOnly(s, hasGlobalConfiguration, listenerMap, keys[..|keys| - 1]);
    }
  }

  /** Every VirtualServer holds its own host. */
  ghost predicate VirtualServersHoldTheirHosts(s: Holding<string>) {
    forall k :: k in s.resources && s.resources[k].VirtualServerConfiguration? ==>
      s.resources[k].virtualServer.host in s.holders && s.holders[s.resources[k].virtualServer.host] == k
  }

  lemma WarnersAgree(s: Holding<string>, t: Holding<string>, hasGlobalConfiguration: bool, listenerMap: map<string, Listener>, key: string)
    requires Consistent(s) && Consistent(t) && VirtualServersHoldTheirHosts(s) && WarnedOnly(s, t)
    ensures WarnHostHolder(t, hasGlobalConfiguration, listenerMap, key) == WarnVirtualServer(t, hasGlobalConfiguration, listenerMap, key)
  {
    if key in t.resources && t.resources[key].VirtualServerConfiguration? {
      assert t.resources[key].virtualServer == s.resources[key].virtualServer;
    }
  }

  /** When every VirtualServer holds its own host, the loop as written warns the same configurations. */
  lemma {:induction false} ListenerWarningsAgree(s: Holding<string>, hasGlobalConfiguration: bool, listenerMap: map<string, Listener>, keys: seq<string>)
    requires Consistent(s) && VirtualServersHoldTheirHosts(s)
    ensures ListenerWarningsAsWritten(s, hasGlobalConfiguration, listenerMap, keys) == ListenerWarnings(s, hasGlobalConfiguration, listenerMap, keys)
  {
    if |keys| > 0 {
      ListenerWarningsAgree(s, hasGlobalConfiguration, listenerMap, keys[..|keys| - 1]);
      ListenerWarningsWarnOnly(s, hasGlobalConfiguration, listenerMap, keys[..|keys| - 1]);
      WarnersAgree(s, ListenerWarnings(s, hasGlobalConfiguration, listenerMap, keys[..|keys| - 1]), hasGlobalConfiguration, listenerMap, keys[|keys| - 1]);
    }
  }

  /**
    The loop as written warns the wrong configuration: VirtualServer A holds
    host "cafe.example.com", VirtualServer B names listeners but lost the
    host, and no GlobalConfiguration is deployed; A gets B's warning and B
    gets none.
   */
  lemma ListenerWarningMisdirected()
    ensures
      var meta := ObjectMeta("default", "", 1, 0, "", map[]);
      var a := NewVirtualServerConfiguration(VirtualServer(meta.(name := "a", uid := "1"), "cafe.example.com", [], None), [], []);
      var b := NewVirtualServerConfiguration(VirtualServer(meta.(name := "b", uid := "2", creationTimestamp := 1), "cafe.example.com", [],
                 Some(VirtualServerListener("http-8083", ""))), [], []);
      var s := Holding(map["cafe.example.com" := "VirtualServer/default/a"], map["VirtualServer/default/a" := a, "VirtualServer/default/b" := b]);
      var asWritten := ListenerWarningsAsWritten(s, false, map[], ["VirtualServer/default/b"]);
      var intended := ListenerWarnings(s, false, map[], ["VirtualServer/default/b"]);
      && asWritten.resources["VirtualServer/default/a"].warnings == ["Listeners defined, but no GlobalConfiguration is deployed"]
      && asWritten.resources["VirtualServer/default/b"].warnings == []
      && intended.resources["VirtualServer/default/a"].warnings == []
      && intended.resources["VirtualServer/default/b"].warnings == ["Listeners defined, but no GlobalConfiguration is deployed"]
  {
    var keys := ["VirtualServer/default/b"];
    assert keys[..0] == [];
  }

  // ---- Problems ----

  /** Records a problem under the key with kind of its object. */
  function Record(problems: map<string, ConfigurationProblem>, p: Option<ConfigurationProblem>): map<string, ConfigurationProblem> {
    match p
    case None => problems
    case Some(q) => problems[q.objectKey := q]
  }

  /** The problem loops: the problem of every item under the given keys, in that order. */
  function RecordAll<T>(problems: map<string, ConfigurationProblem>, items: map<string, T>, keys: seq<string>, problemOf: T -> Option<ConfigurationProblem>): map<string, ConfigurationProblem> {
    if |keys| == 0 then problems
    else
      var prev := RecordAll(problems, items, keys[..|keys| - 1], problemOf);
      var key := keys[|keys| - 1];
      if key in items then Record(prev, problemOf(items[key])) else prev
  }

  /** The keys of the problems of the items under the given keys. */
  ghost function ProblemKeys<T>(items: map<string, T>, keys: seq<string>, problemOf: T -> Option<ConfigurationProblem>): set<string> {
    set k | k in keys && k in items && problemOf(items[k]).Some? :: problemOf(items[k]).value.objectKey
  }

  /** Different items have problems under different keys. */
  ghost predicate KeysApart<T>(items: map<string, T>, problemOf: T -> Option<ConfigurationProblem>) {
    forall k1, k2 :: k1 in items && k2 in items && k1 != k2 && problemOf(items[k1]).Some? && problemOf(items[k2]).Some? ==>
      problemOf(items[k1]).value.objectKey != problemOf(items[k2]).value.objectKey
  }

  lemma ProblemKeysPrefix<T>(items: map<string, T>, keys: seq<string>, problemOf: T -> Option<ConfigurationProblem>)
    requires |keys| > 0
    ensures var key := keys[|keys| - 1];
      ProblemKeys(items, keys, problemOf) == ProblemKeys(items, keys[..|keys| - 1], problemOf) +
        (if key in items && problemOf(items[key]).Some? then {problemOf(items[key]).value.objectKey} else {})
  {
    assert forall k :: k in keys <==> k in keys[..|keys| - 1] || k == keys[|keys| - 1];
  }

  /**
    When items have problems under different keys, the loop keeps the
    problems it started with under other keys, and adds exactly the problem
    of every item under the given keys.
   */
  lemma {:induction false} RecordAllProperties<T>(problems: map<string, ConfigurationProblem>, items: map<string, T>, keys: seq<string>, problemOf: T -> Option<ConfigurationProblem>)
    requires Distinct(keys) && KeysApart(items, problemOf)
    ensures var r := RecordAll(problems, items, keys, problemOf);
      && r.Keys == problems.Keys + ProblemKeys(items, keys, problemOf)
      && (forall k :: k in items && k in keys && problemOf(items[k]).Some? ==> r[problemOf(items[k]).value.objectKey] == problemOf(items[k]).value)
      && (forall kk :: kk in problems && kk !in ProblemKeys(items, keys, problemOf) ==> r[kk] == problems[kk])
  {
    if |keys| > 0 {
      var n := |keys| - 1;
      var p := keys[..n];
      var key := keys[n];
      DistinctPrefix(keys);
      RecordAllProperties(problems, items, p, problemOf);
      ProblemKeysPrefix(items, keys, problemOf);
      var prev := RecordAll(problems, items, p, problemOf);
      var r := RecordAll(problems, items, keys, problemOf);
      assert forall k :: k in keys && k != key ==> k in p;
      if key in items && problemOf(items[key]).Some? {
        var q := problemOf(items[key]).value;
        assert r == prev[q.objectKey := q];
        forall k | k in items && k in keys && k != key && problemOf(items[k]).Some?
          ensures r[problemOf(items[k]).value.objectKey] == problemOf(items[k]).value
        {
          assert problemOf(items[k]).value.objectKey != q.objectKey;
        }
      } else {
        assert r == prev;
      }
    }
  }

  // addProblemsForResourcesWithoutActiveHost

  /**
    An Ingress holding none of its hosts, or a VirtualServer or
    TransportServer not holding its host, is rejected. (The source would
    dereference a missing holder; every such host is held after the build.)
   */
  function HostProblem(hosts: map<string, Resource>, r: Resource): Option<ConfigurationProblem> {
    match r
    case IngressConfiguration(_, _, _, validHosts, _, _) =>
      if true in validHosts.Values then None
      else Some(ConfigurationProblem(r.GetKeyWithKind(), false, EventReasonRejected, "All hosts are taken by other resources"))
    case VirtualServerConfiguration(vs, _, _, _, _, _, _, _, _) =>
      if vs.host in hosts && hosts[vs.host].GetKeyWithKind() == r.GetKeyWithKind() then None
      else Some(ConfigurationProblem(r.GetKeyWithKind(), false, EventReasonRejected, "Host is taken by another resource"))
    case TransportServerConfiguration(_, _, _, ts, _) =>
      if ts.host in hosts && hosts[ts.host].GetKeyWithKind() == r.GetKeyWithKind() then None
      else Some(ConfigurationProblem(r.GetKeyWithKind(), false, EventReasonRejected, "Host is taken by another resource"))
  }

  function HostProblemOf(hosts: map<string, Resource>): Resource -> Option<ConfigurationProblem> {
    r => HostProblem(hosts, r)
  }

  // addProblemsForOrphanMinions

  /** A minion whose first host is not held by a master Ingress has no master. */
  function OrphanMinionProblem(hosts: map<string, Resource>, ing: Ingress): Option<ConfigurationProblem> {
    if !IsMinion(ing) then None
    else if FirstRuleHost(ing).Some? && FirstRuleHost(ing).value in hosts
         && hosts[FirstRuleHost(ing).value].IngressConfiguration? && hosts[FirstRuleHost(ing).value].isMaster then None
    else Some(ConfigurationProblem(ResourceKeyWithKind(IngressKind, ing.meta), false, EventReasonNoIngressMasterFound,
                                   "Ingress master is invalid or doesn't exist"))
  }

  function OrphanMinionProblemOf(hosts: map<string, Resource>): Ingress -> Option<ConfigurationProblem> {
    ing => OrphanMinionProblem(hosts, ing)
  }

  // addProblemsForOrphanOrIgnoredVsrs

  /** A VirtualServer configuration lists the VirtualServerRoute (by namespace and name). */
  predicate ListsRoute(vsrs: seq<VirtualServerRoute>, vsr: VirtualServerRoute) {
    exists i :: 0 <= i < |vsrs| && vsrs[i].meta.namespace == vsr.meta.namespace && vsrs[i].meta.name == vsr.meta.name
  }

  /**
    A VirtualServerRoute whose host is not held by a VirtualServer has no
    VirtualServer; one the VirtualServer holding its host does not list is ignored.
   */
  function OrphanRouteProblem(hosts: map<string, Resource>, vsr: VirtualServerRoute): Option<ConfigurationProblem> {
    var key := ResourceKeyWithKind(VirtualServerRouteKind, vsr.meta);
    if !(vsr.host in hosts && hosts[vsr.host].VirtualServerConfiguration?) then
      Some(ConfigurationProblem(key, false, EventReasonNoVirtualServerFound, "VirtualServer is invalid or doesn't exist"))
    else if ListsRoute(hosts[vsr.host].virtualServerRoutes, vsr) then None
    else Some(ConfigurationProblem(key, false, EventReasonIgnored,
                                   "VirtualServer " + ResourceKey(hosts[vsr.host].virtualServer.meta) + " ignores VirtualServerRoute"))
  }

  function OrphanRouteProblemOf(hosts: map<string, Resource>): VirtualServerRoute -> Option<ConfigurationProblem> {
    vsr => OrphanRouteProblem(hosts, vsr)
  }

  // addProblemsForTSConfigsWithoutActiveListener

  /**
    A TransportServer configuration whose listener and host have no holder,
    or a holder that is not the same configuration, is rejected.
   */
  function ListenerProblem(listenerHosts: map<ListenerHostKey, Resource>, tsc: Resource): Option<ConfigurationProblem> {
    if !tsc.TransportServerConfiguration? then None
    else
      var ts := tsc.transportServer;
      var key := ListenerHostKey(ts.listener.name, ts.host);
      if key !in listenerHosts then
        Some(ConfigurationProblem(tsc.GetKeyWithKind(), false, EventReasonRejected, "Listener " + ts.listener.name + " doesn't exist"))
      else if tsc.IsEqual(listenerHosts[key]) then None
      else
        var hostDescription := if ts.host == "" then "empty host" else ts.host;
        Some(ConfigurationProblem(tsc.GetKeyWithKind(), false, EventReasonRejected,
                                  "Listener " + ts.listener.name + " with host " + hostDescription + " is taken by another resource"))
  }

  function ListenerProblemOf(listenerHosts: map<ListenerHostKey, Resource>): Resource -> Option<ConfigurationProblem> {
    tsc => ListenerProblem(listenerHosts, tsc)
  }

  // ---- Keys of problems ----

  lemma KindedKeysDiffer(kind: string, k1: string, k2: string)
    requires k1 != k2
    ensures kind + "/" + k1 != kind + "/" + k2
  {
    assert (kind + "/" + k1)[|kind| + 1..] == k1;
    assert (kind + "/" + k2)[|kind| + 1..] == k2;
  }

  lemma HostProblemKeysApart(hosts: map<string, Resource>, resources: map<string, Resource>)
    requires forall k :: k in resources ==> resources[k].GetKeyWithKind() == k
    ensures KeysApart(resources, HostProblemOf(hosts))
  {
  }

  lemma OrphanMinionKeysApart(hosts: map<string, Resource>, ingresses: map<string, Ingress>)
    requires forall k :: k in ingresses ==> ResourceKey(ingresses[k].meta) == k
    ensures KeysApart(ingresses, OrphanMinionProblemOf(hosts))
  {
    forall k1, k2 | k1 in ingresses && k2 in ingresses && k1 != k2
      ensures ResourceKeyWithKind(IngressKind, ingresses[k1].meta) != ResourceKeyWithKind(IngressKind, ingresses[k2].meta)
    {
      KeyWithKindOfStoreKey(IngressKind, ingresses[k1].meta, k1);
      KeyWithKindOfStoreKey(IngressKind, ingresses[k2].meta, k2);
      KindedKeysDiffer(IngressKind, k1, k2);
    }
  }

  lemma OrphanRouteKeysApart(hosts: map<string, Resource>, vsrs: map<string, VirtualServerRoute>)
    requires forall k :: k in vsrs ==> ResourceKey(vsrs[k].meta) == k
    ensures KeysApart(vsrs, OrphanRouteProblemOf(hosts))
  {
    forall k1, k2 | k1 in vsrs && k2 in vsrs && k1 != k2
      ensures ResourceKeyWithKind(VirtualServerRouteKind, vsrs[k1].meta) != ResourceKeyWithKind(VirtualServerRouteKind, vsrs[k2].meta)
    {
      KeyWithKindOfStoreKey(VirtualServerRouteKind, vsrs[k1].meta, k1);
      KeyWithKindOfStoreKey(VirtualServerRouteKind, vsrs[k2].meta, k2);
      KindedKeysDiffer(VirtualServerRouteKind, k1, k2);
    }
  }

  /** TransportServer configurations stored under the keys of their TransportServers. */
  ghost predicate ConfigurationsOf(s: Holding<ListenerHostKey>, transportServers: map<string, TransportServer>) {
    forall k :: k in s.resources ==>
      && k in transportServers
      && s.resources[k].TransportServerConfiguration?
      && s.resources[k].transportServer == transportServers[k]
  }

  lemma ListenerStepConfigurations(s: Holding<ListenerHostKey>, transportServers: map<string, TransportServer>, gc: Option<GlobalConfiguration>, key: string)
    requires Consistent(s) && ConfigurationsOf(s, transportServers) && key in transportServers
    ensures ConfigurationsOf(ListenerStep(s, gc, key, transportServers[key]), transportServers)
  {
    var ts := transportServers[key];
    if ts.listener.protocol != TLSPassthroughListenerProtocol && gc.Some? {
      match FindListener(gc.value.listeners, ts.listener.name, ts.listener.protocol)
      case None =>
      case Some(l) =>
        var t := s.(resources := s.resources[key := BoundTransportServerConfiguration(ts, l)]);
        var place := ListenerHostKey(l.name, ts.host);
        var r := Claim(t, place, key, ListenerTakenWarning(place));
        assert ListenerStep(s, gc, key, ts) == r;
        ClaimWarnsOnly(t, place, key, ListenerTakenWarning(place));
        forall k | k in r.resources
          ensures k in transportServers && r.resources[k].TransportServerConfiguration? && r.resources[k].transportServer == transportServers[k]
        {
          assert t.resources[k].TransportServerConfiguration?;
        }
    }
  }

  lemma {:induction false} ListenerPhaseConfigurations(s: Holding<ListenerHostKey>, transportServers: map<string, TransportServer>, gc: Option<GlobalConfiguration>, keys: seq<string>)
    requires Consistent(s) && ConfigurationsOf(s, transportServers)
    ensures ConfigurationsOf(ListenerPhase(s, transportServers, gc, keys), transportServers)
  {
    if |keys| > 0 {
      ListenerPhaseConfigurations(s, transportServers, gc, keys[..|keys| - 1]);
      if keys[|keys| - 1] in transportServers {
        ListenerStepConfigurations(ListenerPhase(s, transportServers, gc, keys[..|keys| - 1]), transportServers, gc, keys[|keys| - 1]);
      }
    }
  }

  lemma ListenerProblemKeysApart(listenerHosts: map<ListenerHostKey, Resource>, s: Holding<ListenerHostKey>, transportServers: map<string, TransportServer>)
    requires ConfigurationsOf(s, transportServers)
    requires forall k :: k in transportServers ==> ResourceKey(transportServers[k].meta) == k
    ensures KeysApart(s.resources, ListenerProblemOf(listenerHosts))
  {
    forall k1, k2 | k1 in s.resources && k2 in s.resources && k1 != k2
      ensures s.resources[k1].GetKeyWithKind() != s.resources[k2].GetKeyWithKind()
    {
      KeyWithKindOfStoreKey(TransportServerKind, transportServers[k1].meta, k1);
      KeyWithKindOfStoreKey(TransportServerKind, transportServers[k2].meta, k2);
      KindedKeysDiffer(TransportServerKind, k1, k2);
    }
  }

  // ---- Latest versions in changes ----

  /**
    The key a change's configuration is looked up by among the latest
    configurations: its key with kind, or its "namespace/name" key.
   */
  function LatestKey(r: Resource, byResourceKey: bool): string {
    if byResourceKey then ResourceKey(r.ObjectMeta()) else r.GetKeyWithKind()
  }

  function Refreshed(change: ResourceChange, latest: map<string, Resource>, byResourceKey: bool): ResourceChange {
    var key := LatestKey(change.resource, byResourceKey);
    if key in latest then change.(resource := latest[key]) else change
  }

  /** The changes, each referring to the latest version of its configuration when there is one. */
  function RefreshChanges(changes: seq<ResourceChange>, latest: map<string, Resource>, byResourceKey: bool): (r: seq<ResourceChange>)
    ensures |r| == |changes|
  {
    seq(|changes|, i requires 0 <= i < |changes| => Refreshed(changes[i], latest, byResourceKey))
  }

  /**
    Refreshing from configurations stored under their own keys keeps the
    operation, the error and the key of every change, so the squashed order
    stays as it was.
   */
  lemma RefreshChangesKeepsKeys(changes: seq<ResourceChange>, latest: map<string, Resource>)
    requires forall k :: k in latest ==> latest[k].GetKeyWithKind() == k
    ensures forall i :: 0 <= i < |changes| ==>
      var c := RefreshChanges(changes, latest, false)[i];
      && c.op == changes[i].op && c.error == changes[i].error && ChangeKey(c) == ChangeKey(changes[i])
      && (ChangeKey(c) in latest ==> c.resource == latest[ChangeKey(c)])
  {
  }

  /**
    Finding: rebuildListenerHosts looks the latest TransportServer
    configurations up by key with kind, but they are stored by
    "namespace/name". With well-formed names the lookup never hits, so no
    change is refreshed.
   */
  lemma ListenerRefreshNeverHits(changes: seq<ResourceChange>, latest: map<string, Resource>)
    requires forall k :: k in latest ==> WellFormedName(latest[k].ObjectMeta()) && ResourceKey(latest[k].ObjectMeta()) == k
    requires forall i :: 0 <= i < |changes| ==> WellFormedName(changes[i].resource.ObjectMeta())
    ensures RefreshChanges(changes, latest, false) == changes
  {
    forall i | 0 <= i < |changes|
      ensures changes[i].resource.GetKeyWithKind() !in latest
    {
      var r := changes[i].resource;
      forall k | k in latest ensures r.GetKeyWithKind() != k {
        KeyWithKindIsNotResourceKey(r.Kind(), r.ObjectMeta(), latest[k].ObjectMeta());
      }
    }
  }

  /**
    Refreshing by "namespace/name" gives every change of a TransportServer
    configuration stored among the latest ones that latest version, keeping
    operation, error and key.
   */
  lemma ListenerRefreshProperties(changes: seq<ResourceChange>, latest: map<string, Resource>)
    requires forall k :: k in latest ==> latest[k].TransportServerConfiguration? && ResourceKey(latest[k].ObjectMeta()) == k
    requires forall i :: 0 <= i < |changes| ==> changes[i].resource.TransportServerConfiguration?
    ensures forall i :: 0 <= i < |changes| ==>
      var c := RefreshChanges(changes, latest, true)[i];
      var key := ResourceKey(changes[i].resource.ObjectMeta());
      && c.op == changes[i].op && c.error == changes[i].error && ChangeKey(c) == ChangeKey(changes[i])
      && (key in latest ==> c.resource == latest[key])
  {
    forall i | 0 <= i < |changes| && ResourceKey(changes[i].resource.ObjectMeta()) in latest
      ensures ChangeKey(RefreshChanges(changes, latest, true)[i]) == ChangeKey(changes[i])
    {
      var key := ResourceKey(changes[i].resource.ObjectMeta());
      KeyWithKindOfStoreKey(TransportServerKind, changes[i].resource.ObjectMeta(), key);
      KeyWithKindOfStoreKey(TransportServerKind, latest[key].ObjectMeta(), key);
    }
  }

  /**
    The warning a TransportServer got when it lost its listener is lost
    from its delete change as written, and kept when the lookup is by
    "namespace/name".
   */
  lemma ListenerRefreshLosesWarning()
    ensures
      var ts := TransportServer(ObjectMeta("default", "a", 1, 0, "1", map[]), "", TransportServerListener("dns-tcp", "TCP"));
      var before := TransportServerConfiguration(5353, "", "", ts, []);
      var latest := TransportServerConfiguration(5353, "", "", ts, ["listener dns-tcp and host  are taken by another resource"]);
      var changes := [ResourceChange(Delete, before, "")];
      && RefreshChanges(changes, map["default/a" := latest], false) == changes
      && RefreshChanges(changes, map["default/a" := latest], true) == [ResourceChange(Delete, latest, "")]
  {
    var ts := TransportServer(ObjectMeta("default", "a", 1, 0, "1", map[]), "", TransportServerListener("dns-tcp", "TCP"));
    var before := TransportServerConfiguration(5353, "", "", ts, []);
    var latest := TransportServerConfiguration(5353, "", "", ts, ["listener dns-tcp and host  are taken by another resource"]);
    var changes := [ResourceChange(Delete, before, "")];
    ResourceKeyWithKindText(TransportServerKind, ts.meta);
    assert before.GetKeyWithKind() == "TransportServer/default/a";
    assert ResourceKey(before.ObjectMeta()) == "default/a";
    assert RefreshChanges(changes, map["default/a" := latest], false)[0] == changes[0];
    assert RefreshChanges(changes, map["default/a" := latest], true)[0] == ResourceChange(Delete, latest, "");
  }

  // ---- What a rebuild leaves behind ----

  /**
    rebuildHosts: the holders and configurations built from the store, with
    the valid hosts of the Ingresses marked and the listener warnings added.
    The source adds the warnings after the comparison, to configurations it
    shares with the new hosts and the changes; applying them first gives the
    same hosts and changes, since the comparison ignores warnings.
   */
  ghost function RebuiltHosts(st: Store, tlsPassthrough: bool, validate: RouteValidator): (r: Holding<string>)
    ensures Consistent(r)
  {
    var s := ActiveHosts(HostsAndResources(st, tlsPassthrough, validate));
    ListenerWarnings(s, st.globalConfiguration.Some?, st.listenerMap, SortedStrings(s.resources.Keys))
  }

  /**
    The problems of rebuildHosts: configurations without an active host,
    then orphan minions, then orphan or ignored VirtualServerRoutes.
   */
  ghost function HostProblemsOf(st: Store, s: Holding<string>): map<string, ConfigurationProblem>
    requires Consistent(s)
  {
    var hosts := Places(s);
    var withHosts := RecordAll(map[], s.resources, SortedStrings(s.resources.Keys), HostProblemOf(hosts));
    var withMinions := RecordAll(withHosts, st.ingresses, SortedStrings(st.ingresses.Keys), OrphanMinionProblemOf(hosts));
    RecordAll(withMinions, st.virtualServerRoutes, SortedStrings(st.virtualServerRoutes.Keys), OrphanRouteProblemOf(hosts))
  }

  /** The problems of rebuildListenerHosts: TransportServer configurations without an active listener. */
  ghost function ListenerProblemsOf(s: Holding<ListenerHostKey>): map<string, ConfigurationProblem>
    requires Consistent(s)
  {
    RecordAll(map[], s.resources, SortedStrings(s.resources.Keys), ListenerProblemOf(Places(s)))
  }

  /** The changes rebuildHosts reports: created from the diff of the hosts, squashed, and refreshed from the latest configurations. */
  ghost function HostChanges(oldHosts: map<string, Resource>, newHosts: map<string, Resource>, latest: map<string, Resource>): seq<ResourceChange> {
    SortedStringsEnumerates(oldHosts.Keys - newHosts.Keys);
    SortedStringsEnumerates(newHosts.Keys - oldHosts.Keys);
    UpdatedHostsMembership(SortedStrings(newHosts.Keys), oldHosts, newHosts);
    var removed := SortedStrings(oldHosts.Keys - newHosts.Keys);
    var updated := UpdatedHosts(SortedStrings(newHosts.Keys), oldHosts, newHosts);
    var added := SortedStrings(newHosts.Keys - oldHosts.Keys);
    RefreshChanges(Squash(ResourceChangesFor(removed, updated, added, oldHosts, newHosts)), latest, false)
  }

  /**
    The changes rebuildListenerHosts reports, refreshed from the latest
    TransportServer configurations by their "namespace/name" keys, under
    which they are stored.
   */
  ghost function ListenerChanges(oldListeners: map<ListenerHostKey, Resource>, newListeners: map<ListenerHostKey, Resource>, latest: map<string, Resource>): seq<ResourceChange> {
    SortedListenerHostKeysEnumerates(oldListeners.Keys - newListeners.Keys);
    SortedListenerHostKeysEnumerates(UpdatedListenerHostKeys(oldListeners, newListeners));
    SortedListenerHostKeysEnumerates(newListeners.Keys - oldListeners.Keys);
    var removed := SortedListenerHostKeys(oldListeners.Keys - newListeners.Keys);
    var updated := SortedListenerHostKeys(UpdatedListenerHostKeys(oldListeners, newListeners));
    var added := SortedListenerHostKeys(newListeners.Keys - oldListeners.Keys);
    RefreshChanges(Squash(ResourceChangesFor(removed, updated, added, oldListeners, newListeners)), latest, true)
  }

  /** What a rebuild returns: the changes and the new or changed problems. */
  datatype Outcome = Outcome(changes: seq<ResourceChange>, problems: seq<ConfigurationProblem>)

  function Concat(a: Outcome, b: Outcome): Outcome {
    Outcome(a.changes + b.changes, a.problems + b.problems)
  }

  /** rebuildHosts from the store, given the hosts and problems before. */
  ghost function RebuildHostsOutcome(st: Store, tlsPassthrough: bool, validate: RouteValidator,
                                     oldHosts: map<string, Resource>, oldProblems: map<string, ConfigurationProblem>): Outcome
  {
    var s := RebuiltHosts(st, tlsPassthrough, validate);
    var newProblems := HostProblemsOf(st, s);
    Outcome(HostChanges(oldHosts, Places(s), s.resources), ChangedProblems(SortedStrings(newProblems.Keys), newProblems, oldProblems))
  }

  /** rebuildListenerHosts from the store, given the listener hosts and problems before. */
  ghost function RebuildListenersOutcome(transportServers: map<string, TransportServer>, gc: Option<GlobalConfiguration>,
                                         oldListeners: map<ListenerHostKey, Resource>, oldProblems: map<string, ConfigurationProblem>): Outcome
  {
    var s := ListenerHostsAndTSConfigurations(transportServers, gc);
    var newProblems := ListenerProblemsOf(s);
    Outcome(ListenerChanges(oldListeners, Places(s), s.resources), ChangedProblems(SortedStrings(newProblems.Keys), newProblems, oldProblems))
  }

  // ---- Validation errors ----

  /** The position of the first change about the configuration with the given key with kind. */
  function FirstChangeFor(changes: seq<ResourceChange>, keyWithKind: string): (r: Option<nat>)
    ensures r.Some? ==> r.value < |changes| && ChangeKey(changes[r.value]) == keyWithKind
    ensures r.Some? ==> forall i :: 0 <= i < r.value ==> ChangeKey(changes[i]) != keyWithKind
    ensures r.None? <==> forall i :: 0 <= i < |changes| ==> ChangeKey(changes[i]) != keyWithKind
  {
    if |changes| == 0 then None
    else if ChangeKey(changes[0]) == keyWithKind then Some(0)
    else match FirstChangeFor(changes[1..], keyWithKind)
      case None => None
      case Some(i) => Some(i + 1)
  }

  /**
    A rejected object's validation error goes on the first change about it;
    when there is none, it becomes a problem of its own.
   */
  function WithValidationError(o: Outcome, keyWithKind: string, error: string, message: string): (r: Outcome)
    ensures |r.changes| == |o.changes|
  {
    match FirstChangeFor(o.changes, keyWithKind)
    case Some(i) => o.(changes := o.changes[i := o.changes[i].(error := error)])
    case None => o.(problems := o.problems + [ConfigurationProblem(keyWithKind, true, EventReasonRejected, message)])
  }

  /**
    The error is reported exactly once: on the earliest change about the
    object, nothing else changing, or, when no change is about the object,
    as one rejection problem appended to the problems.
   */
  lemma WithValidationErrorProperties(o: Outcome, keyWithKind: string, error: string, message: string)
    ensures var r := WithValidationError(o, keyWithKind, error, message);
      && ((exists i :: 0 <= i < |o.changes| && ChangeKey(o.changes[i]) == keyWithKind) <==> r.problems == o.problems)
      && (forall i :: 0 <= i < |o.changes| ==>
            && r.changes[i].op == o.changes[i].op && r.changes[i].resource == o.changes[i].resource
            && (r.changes[i].error != o.changes[i].error ==> ChangeKey(o.changes[i]) == keyWithKind && r.changes[i].error == error))
      && (forall i, j :: 0 <= i < j < |o.changes| && ChangeKey(o.changes[i]) == keyWithKind ==> r.changes[j] == o.changes[j])
      && (r.problems != o.problems ==>
            r.changes == o.changes && r.problems == o.problems + [ConfigurationProblem(keyWithKind, true, EventReasonRejected, message)])
  {
    match FirstChangeFor(o.changes, keyWithKind)
    case Some(k) =>
      assert ChangeKey(o.changes[k]) == keyWithKind;
    case None =>
      assert |o.problems + [ConfigurationProblem(keyWithKind, true, EventReasonRejected, message)]| != |o.problems|;
  }

  // ---- Rebuilding again ----

  /** A sequence is empty exactly when nothing is in it. */
  lemma NoElements<T>(s: seq<T>)
    ensures s == [] <==> forall x :: x !in s
  {
    if |s| > 0 {
      assert s[0] in s;
    }
  }

  /** Holding the same places as before, nothing is removed, updated or added. */
  lemma HostChangesNone(h: map<string, Resource>, latest: map<string, Resource>)
    ensures HostChanges(h, h, latest) == []
  {
    SortedStringsEnumerates(h.Keys - h.Keys);
    UpdatedHostsMembership(SortedStrings(h.Keys), h, h);
    NoElements(SortedStrings(h.Keys - h.Keys));
    NoElements(UpdatedHosts(SortedStrings(h.Keys), h, h));
    assert ResourceChangesFor<string>([], [], [], h, h) == [];
  }

  lemma ListenerChangesNone(h: map<ListenerHostKey, Resource>, latest: map<string, Resource>)
    ensures ListenerChanges(h, h, latest) == []
  {
    SortedListenerHostKeysEnumerates(h.Keys - h.Keys);
    SortedListenerHostKeysEnumerates(UpdatedListenerHostKeys(h, h));
    NoElements(SortedListenerHostKeys(h.Keys - h.Keys));
    NoElements(SortedListenerHostKeys(UpdatedListenerHostKeys(h, h)));
    assert ResourceChangesFor<ListenerHostKey>([], [], [], h, h) == [];
  }

  /** Problems compared with themselves are none of them new or changed. */
  lemma ChangedProblemsNone(keys: seq<string>, problems: map<string, ConfigurationProblem>)
    ensures ChangedProblems(keys, problems, problems) == []
  {
    ChangedProblemsMembership(keys, problems, problems);
    assert ChangedProblemKeys(problems, problems) == {};
    NoElements(ChangedProblems(keys, problems, problems));
  }

  /** rebuildHosts right after rebuildHosts, with the store unchanged, reports no change and no problem. */
  lemma RebuildHostsStable(st: Store, tlsPassthrough: bool, validate: RouteValidator)
    ensures var s := RebuiltHosts(st, tlsPassthrough, validate);
      RebuildHostsOutcome(st, tlsPassthrough, validate, Places(s), HostProblemsOf(st, s)) == Outcome([], [])
  {
    var s := RebuiltHosts(st, tlsPassthrough, validate);
    var problems := HostProblemsOf(st, s);
    HostChangesNone(Places(s), s.resources);
    ChangedProblemsNone(SortedStrings(problems.Keys), problems);
  }

  /** rebuildListenerHosts right after rebuildListenerHosts, with the store unchanged, reports no change and no problem. */
  lemma RebuildListenersStable(transportServers: map<string, TransportServer>, gc: Option<GlobalConfiguration>)
    ensures var s := ListenerHostsAndTSConfigurations(transportServers, gc);
      RebuildListenersOutcome(transportServers, gc, Places(s), ListenerProblemsOf(s)) == Outcome([], [])
  {
    var s := ListenerHostsAndTSConfigurations(transportServers, gc);
    var problems := ListenerProblemsOf(s);
    ListenerChangesNone(Places(s), s.resources);
    ChangedProblemsNone(SortedStrings(problems.Keys), problems);
  }

  // ---- What the hosts do not depend on ----

  lemma {:induction false} VirtualServerPhaseIgnoresTransportServers(s: Holding<string>, st: Store, validate: RouteValidator,
                                                                     keys: seq<string>, transportServers: map<string, TransportServer>)
    requires Consistent(s)
    ensures VirtualServerPhase(s, st, validate, keys) == VirtualServerPhase(s, st.(transportServers := transportServers), validate, keys)
  {
    if |keys| > 0 {
      VirtualServerPhaseIgnoresTransportServers(s, st, validate, keys[..|keys| - 1], transportServers);
    }
  }

  /** Without TLS Passthrough, the hosts and their problems do not depend on the TransportServers. */
  lemma HostsIgnoreTransportServers(st: Store, tlsPassthrough: bool, validate: RouteValidator, transportServers: map<string, TransportServer>)
    requires !tlsPassthrough
    ensures RebuiltHosts(st, tlsPassthrough, validate) == RebuiltHosts(st.(transportServers := transportServers), tlsPassthrough, validate)
    ensures HostProblemsOf(st, RebuiltHosts(st, tlsPassthrough, validate))
         == HostProblemsOf(st.(transportServers := transportServers), RebuiltHosts(st, tlsPassthrough, validate))
  {
    var s1 := IngressPhase(Holding(map[], map[]), st.ingresses, SortedStrings(st.ingresses.Keys));
    VirtualServerPhaseIgnoresTransportServers(s1, st, validate, SortedStrings(st.virtualServers.Keys), transportServers);
  }

  /** With nothing stored, nothing holds a host or a listener and there are no problems. */
  lemma EmptyRebuilds(tlsPassthrough: bool, validate: RouteValidator)
    ensures var st := Store(map[], map[], map[], map[], None, map[]);
      && RebuiltHosts(st, tlsPassthrough, validate) == Holding(map[], map[])
      && HostProblemsOf(st, Holding(map[], map[])) == map[]
      && ListenerHostsAndTSConfigurations(map[], None) == Holding(map[], map[])
      && ListenerProblemsOf(ListenerHostsAndTSConfigurations(map[], None)) == map[]
  {
    SortedStringsEnumerates({});
    NoElements(SortedStrings({}));
  }
}
