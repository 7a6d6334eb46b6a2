# Configuration arbitration of the NGINX Ingress Controller, in Dafny

The Ingress Controller keeps a `Configuration`: the Ingresses, VirtualServers,
VirtualServerRoutes and TransportServers it has accepted, the
GlobalConfiguration with its listeners, and the winner of every contested
place. A place is a host name, claimed by Ingresses, VirtualServers and TLS
Passthrough TransportServers, or a listener and host pair, claimed by
TransportServers. Each add, update or delete stores the resource or drops it.
It then rebuilds the holders from scratch, in key order, and reports two
things:

- the resource changes NGINX must apply (deletes first, one change per
  configuration, each carrying the configuration's latest warnings);
- the problems that are new or changed since the last rebuild.

The project models that engine:

- `Resources`: the stored resources and their configurations, the
  metadata-only winner rule, equality for NGINX, keys, changes and problems.
- `Ordering`: the ascending listing of a key set, as the sorted key listings
  produce it.
- `Arbitration`: one claim of one place, and the invariant that a sequence of
  claims keeps. The holder is never beaten by a claimant. Every losing
  claimant carries the place's warning. Every holder claimed its place.
- `Builders`: buildHostsAndResources, buildListenerHostsAndTSConfigurations,
  buildMinionConfigs, buildVirtualServerRoutes and buildListenersForVSConfiguration,
  as functions with their properties.
- `Changes`: detectChangesInHosts, detectChangesInListenerHosts,
  createResourceChangesFor{Hosts,Listeners}, squashResourceChanges and
  detectChangesInProblems, as loops proved against specification functions.
- `Rebuild`:
  - updateActiveHostsForIngresses, the listener warnings, and the four
    problem passes;
  - refreshing changes to their latest configuration;
  - attaching a validation error;
  - the outcome of a whole rebuild, and its stability when nothing changed.
- `Configuration`: the `Configuration` class. Its fields are those of the
  source's struct. Its methods are the store operations and the rebuilds,
  each proved to leave the fields equal to a rebuild of the store. Each
  returns exactly the changes and problems that rebuild defines.

The rebuild runs the corrected behaviour of the three findings listed under
"## Findings", not the code as written:
- the host comparison also compares the HTTPS addresses;
- the listener changes are refreshed by "namespace/name";
- the listener warnings go to the VirtualServer itself.

For each finding the code as written is modelled beside the corrected version,
proved over all inputs, and shown to differ on a concrete input. "## Left out"
names every member that inherits a correction.

The verdicts of validators and of the ingress-class check, and the
VirtualServerRoute validator, are parameters. A resource is kept when it has
the right class and no validation error. When it has the right class but a
validation error, the error is attached to the first change about it, or else
reported as a problem.

## Model

| member | source | states |
|---|---|---|
| Ordering.StrLessIsStrictTotalOrder | internal/k8s/configuration.go:1705-1715 | the lexicographic order the string keys are sorted by is irreflexive, transitive and total |
| Ordering.SortedStringsEnumerates | internal/k8s/configuration.go:1753-1763 | the sorted listing of a key set is strictly ascending and holds exactly the keys of the set |
| Ordering.EnumerationUnique | internal/k8s/configuration.go:1753-1763 | two strictly ascending listings of the same key set are equal, so the sorted order is determined by the keys alone |
| Ordering.SortedStringKeys | internal/k8s/configuration.go:1705-1775 | the getSorted*Keys loops return the ascending listing of the map's keys, and an element is listed exactly when it is a key |
| Resources.ListenerHostKeyLessIsStrictTotalOrder | internal/k8s/configuration.go:1777-1789 | ordering listener-host keys by their "listener\|host" text, with ties on the text broken by listener name, is a strict total order on distinct keys |
| Resources.SortedListenerHostKeyList | internal/k8s/configuration.go:1777-1789 | getSortedListenerHostKeys returns the ascending listing of the map's listener-host keys, each key exactly once |
| Resources.WinnerIrreflexive | internal/k8s/configuration.go:50-56 | no object wins over itself |
| Resources.WinnerExactlyOne | internal/k8s/configuration.go:50-56 | of two objects with different UIDs exactly one wins |
| Resources.WinnerTransitive | internal/k8s/configuration.go:50-56 | winning is transitive: older, or at the same instant a larger UID |
| Resources.ResourceKeyWithKindText | internal/k8s/configuration.go:1281-1283 | the key with kind is "kind/namespace/name" |
| Resources.ResourceKeyWithKindInjective | internal/k8s/configuration.go:1281-1283 | names without '/' give distinct keys with kind for distinct kinds, namespaces or names |
| Resources.KeyWithKindIsNotResourceKey | internal/k8s/configuration.go:1002-1004 | a key with kind is never a "namespace/name" key of well-formed names |
| Resources.Resource.AddWarning | internal/k8s/configuration.go:153-155 | a warning is appended after the earlier ones and nothing else of the configuration changes |
| Resources.Resource.IsEqual | internal/k8s/configuration.go:158-321 | configurations equal for NGINX have the same key with kind and generation, and every configuration is equal to itself |
| Resources.WinsExactlyOne | internal/k8s/configuration.go:148-150 | of two configurations with different UIDs exactly one wins the other |
| Resources.CompareConfigurationProblems | internal/k8s/configuration.go:81-85 | two problems compare equal exactly when they differ at most in the object they are about |
| Arbitration.NotWinsTransitive | internal/k8s/configuration.go:50-56 | "does not win" is transitive, so a holder that the newcomer replaces is beaten by no earlier claimant either |
| Arbitration.WinsAsymmetric | internal/k8s/configuration.go:50-56 | two configurations never win over each other |
| Arbitration.ClaimArbitrated | internal/k8s/configuration.go:1452-1467 | one claim of a place keeps the arbitration invariant: no claimant wins over the holder, losers carry the warning, holders claimed their place |
| Arbitration.HolderWins | internal/k8s/configuration.go:1452-1467 | with different UIDs the holder of a place wins over every other claimant of it, and each of those carries the place's warning |
| Changes.AppendHostUpdatesWhenChanged | internal/k8s/configuration.go:1806-1834 | with the HTTPS addresses compared too (the corrected comparison), the host is appended exactly when its configuration changed for NGINX or its VirtualServer changed a port or an address |
| Changes.HostUpdatesProperties | internal/k8s/configuration.go:1806-1834 | the corrected updates recorded for a host name only that host, and there is one exactly when the configuration or any HTTP or HTTPS port or address changed |
| Changes.HostUpdatesAsWrittenProperties | internal/k8s/configuration.go:1806-1834 | as written, the updates recorded for a host name only that host, at most three times, and there is one exactly when the configuration differs for NGINX or a VirtualServer changed a port or an HTTP address; each such host is also updated by the corrected comparison |
| Changes.HttpsAddressChangeMissed | internal/k8s/configuration.go:1822-1832 | a VirtualServer whose HTTPS IPv4 address changes is changed, yet the loop as written records no update for it, while the corrected one does |
| Changes.UpdatedHostsMembership | internal/k8s/configuration.go:1806-1834 | with the corrected comparison, a host is among the updated hosts exactly when it is listed, held before and after, and changed, an HTTPS address change included |
| Changes.UpdatedHostsAsWrittenMembership | internal/k8s/configuration.go:1806-1834 | as written, a host is among the updated hosts exactly when it is listed, held before and after, and its configuration differs for NGINX or its VirtualServer changed a port or an HTTP address; an unchanged configuration with the same ports and HTTP addresses is never listed |
| Changes.UpdatedHostsAsWrittenRepeats | internal/k8s/configuration.go:1822-1832 | as written, a VirtualServer whose HTTP port and HTTP IPv4 address both change is listed twice |
| Changes.HostUpdatesAgree | internal/k8s/configuration.go:1806-1834 | for a host whose HTTPS addresses stay, the updates as written and the corrected ones are the same |
| Changes.UpdatedHostsAgree | internal/k8s/configuration.go:1806-1834 | when no VirtualServer held before and after moves its HTTPS addresses, the updated hosts as written equal the corrected ones |
| Changes.UpdatedHostsAscending | internal/k8s/configuration.go:1806-1834 | when the hosts are listed in ascending order the updated hosts come out in non-decreasing order |
| Changes.DetectChangesInHosts | internal/k8s/configuration.go:1791-1837 | the removed and added hosts are the ascending listings of the key differences, and the updated hosts are those of the sorted new hosts that changed, an HTTPS address change included (the corrected comparison) |
| Changes.DetectChangesInListenerHosts | internal/k8s/configuration.go:1839-1866 | the removed, updated and added listener-host keys are the ascending listings of the old-only keys, the common keys whose configuration changed, and the new-only keys |
| Changes.DeletesOfProperties | internal/k8s/configuration.go:1289-1295 | one delete per removed key, in order, of the old configuration |
| Changes.DisplacedOfProperties | internal/k8s/configuration.go:1297-1304 | an updated place yields a delete of its old configuration exactly when the holder's key with kind changed |
| Changes.AddOrUpdatesOfProperties | internal/k8s/configuration.go:1306-1319 | one add-or-update per key, in order, of the new configuration |
| Changes.ResourceChangesForProperties | internal/k8s/configuration.go:1285-1326 | deletes come first; every removed place and every displaced holder gets a delete of its old configuration; every updated or added place gets an add-or-update of its new one; there is no other change and no error |
| Changes.CreateResourceChanges | internal/k8s/configuration.go:1285-1375 | the loops of createResourceChangesForHosts and createResourceChangesForListeners return exactly the specified changes |
| Changes.SquashProperties | internal/k8s/configuration.go:1377-1417 | the squashed changes hold, per configuration, exactly its last change, no configuration twice, and all deletes before all updates; among the deletes, and among the add-or-updates, configurations come in the order of their first change |
| Changes.FirstOccurrencesOrdered | internal/k8s/configuration.go:1392-1410 | the second loop visits each configuration once, in the order of its first change |
| Changes.SquashOrdered | internal/k8s/configuration.go:1377-1417 | among the squashed changes of one operation, configurations come in the order of their first change |
| Changes.SquashResourceChanges | internal/k8s/configuration.go:1377-1417 | the two loops over the grouped changes return the squashed changes |
| Changes.ChangedProblemsMembership | internal/k8s/configuration.go:1058-1076 | a new problem is reported exactly when its key had no problem before or the old one differs in kind, reason or message |
| Changes.DetectChangesInProblems | internal/k8s/configuration.go:1058-1076 | the loop reports the new or changed problems in ascending key order |
| Builders.VirtualServerRoutesForProperties | internal/k8s/configuration.go:1635-1669 | the routes of a VirtualServer resolve to the VirtualServerRoutes that exist, match its host and are valid; every missing one yields a warning; and every reference yields either a route or a warning |
| Builders.ListenerMapOfProperties | internal/k8s/configuration.go:1695-1703 | the listener map holds exactly the names of the GlobalConfiguration's listeners, each bound to a listener of that name and, for the last of a name, to that listener |
| Builders.BuildListenersForVSConfigurationProperties | internal/k8s/configuration.go:836-852 | only the HTTP and HTTPS ports and addresses change; nothing changes without listeners or a GlobalConfiguration; a changed side comes from a defined HTTP listener with the matching SSL setting |
| Builders.FindListener | internal/k8s/configuration.go:795-803 | a listener is found exactly when the GlobalConfiguration has one of that name and protocol, and the one found is such a listener |
| Builders.ClaimPath | internal/k8s/configuration.go:1588-1633 | a path claim keeps the minions and their Ingresses and keeps every path's holder index valid |
| Builders.MinionsForProperties | internal/k8s/configuration.go:1588-1633 | the minion configurations are exactly the minions with the master's host, and no path is valid in two of them |
| Builders.HostsAndResourcesArbitrated | internal/k8s/configuration.go:1419-1534 | the hosts built from Ingresses, then VirtualServers, then TLS Passthrough TransportServers, in key order, satisfy the arbitration invariant for all their claims |
| Builders.IngressPhaseArbitrated | internal/k8s/configuration.go:1426-1468 | the Ingress pass keeps the arbitration invariant and adds only Ingress configurations |
| Builders.VirtualServerPhaseArbitrated | internal/k8s/configuration.go:1472-1501 | the VirtualServer pass keeps the arbitration invariant and adds only VirtualServer configurations |
| Builders.TransportServerPhaseArbitrated | internal/k8s/configuration.go:1503-1531 | the TLS Passthrough pass keeps the arbitration invariant and adds only TransportServer configurations |
| Builders.BuildHostsAndResourcesProperties | internal/k8s/configuration.go:1419-1534 | every claimed host has a holder that no claimant beats; every losing claimant carries "host … is taken by another resource" and, UIDs differing, is beaten by the holder; every holder claimed its host |
| Builders.ListenerStepArbitrated | internal/k8s/configuration.go:780-834 | one TransportServer's claim of its listener and host keeps the arbitration invariant |
| Builders.ListenerPhaseArbitrated | internal/k8s/configuration.go:780-834 | the pass over the TransportServers keeps the arbitration invariant and adds only their configurations |
| Builders.BuildListenerHostsProperties | internal/k8s/configuration.go:780-834 | every claimed listener-host pair has a holder that no claimant beats; losers carry the listener warning and, UIDs differing, are beaten by the holder; every holder claimed its pair |
| Rebuild.HostsAndResourcesBuilt | internal/k8s/configuration.go:1419-1534 | every built configuration is stored under its own key with kind, with no valid hosts marked yet |
| Rebuild.ActiveHostsProperties | internal/k8s/configuration.go:1044-1056 | every Ingress configuration gets one valid-host entry per rule host, true exactly when it holds that host; nothing else changes |
| Rebuild.ListenerWarningProperties | internal/k8s/configuration.go:1162-1215 | a VirtualServer draws no listener warning exactly when it names no listeners, or a GlobalConfiguration is deployed and each listener it names is defined with the right SSL setting |
| Rebuild.ListenerWarningsProperties | internal/k8s/configuration.go:1162-1208 | the listener pass changes no holder, and leaves each configuration as the warning of its own VirtualServer defines it |
| Rebuild.ListenerWarningsWarnOnly | internal/k8s/configuration.go:1162-1208 | the listener pass only adds warnings: holders, keys and everything but the warnings stay |
| Rebuild.ListenerWarningsAgree | internal/k8s/configuration.go:1162-1208 | when every VirtualServer holds its own host, warning the holder of the host (as written) and warning the VirtualServer (as intended) agree |
| Rebuild.ListenerWarningMisdirected | internal/k8s/configuration.go:1162-1208 | when a VirtualServer with listeners lost its host, the pass as written warns the holder of the host and not that VirtualServer, and the corrected pass warns the VirtualServer |
| Rebuild.RecordAllProperties | internal/k8s/configuration.go:1114-1160 | a problem pass keeps the earlier problems it does not override, records the problem of every listed item under its object's key, and adds no other key |
| Rebuild.HostProblemKeysApart | internal/k8s/configuration.go:1114-1160 | configurations stored under their key with kind have problems under distinct keys |
| Rebuild.OrphanMinionKeysApart | internal/k8s/configuration.go:1217-1239 | distinct minion Ingresses have their problems under distinct keys |
| Rebuild.OrphanRouteKeysApart | internal/k8s/configuration.go:1241-1279 | distinct VirtualServerRoutes have their problems under distinct keys |
| Rebuild.ListenerProblemKeysApart | internal/k8s/configuration.go:1078-1112 | the TransportServer configurations built from distinct TransportServers have their problems under distinct keys |
| Rebuild.RefreshChangesKeepsKeys | internal/k8s/configuration.go:1023-1028 | refreshing host changes keeps each change's operation, error and configuration key, and makes it refer to the latest configuration of that key |
| Rebuild.ListenerRefreshNeverHits | internal/k8s/configuration.go:761-766 | as written, the listener refresh looks up keys with kind in a map keyed by "namespace/name" and leaves every change as it was |
| Rebuild.ListenerRefreshProperties | internal/k8s/configuration.go:761-766 | the corrected listener refresh keeps each change's operation, error and key, and makes it refer to the latest configuration of its TransportServer |
| Rebuild.ListenerRefreshLosesWarning | internal/k8s/configuration.go:761-766 | a TransportServer that lost its listener is deleted, as written, without the warning saying why; the corrected refresh carries it |
| Rebuild.FirstChangeFor | internal/k8s/configuration.go:456-463 | the position found is that of the first change about the configuration, and there is none exactly when no change is about it |
| Rebuild.WithValidationErrorProperties | internal/k8s/configuration.go:452-477 | a validation error goes on the first change about the resource and on no other change; only when there is no such change is a Rejected problem appended instead |
| Rebuild.HostChangesNone | internal/k8s/configuration.go:1791-1837 | rebuilding to the same hosts yields no change |
| Rebuild.ListenerChangesNone | internal/k8s/configuration.go:1839-1866 | rebuilding to the same listener hosts yields no change |
| Rebuild.ChangedProblemsNone | internal/k8s/configuration.go:1058-1076 | problems unchanged since the last rebuild are not reported |
| Rebuild.RebuildHostsStable | internal/k8s/configuration.go:1007-1042 | a second host rebuild of the same store reports no change and no problem |
| Rebuild.RebuildListenersStable | internal/k8s/configuration.go:748-778 | a second listener rebuild of the same TransportServers and GlobalConfiguration reports no change and no problem |
| Rebuild.HostsIgnoreTransportServers | internal/k8s/configuration.go:1503-1505 | without TLS Passthrough the hosts and their problems do not depend on the TransportServers |
| Rebuild.EmptyRebuilds | internal/k8s/configuration.go:387-429 | an empty configuration rebuilds to no hosts, no listener hosts and no problems |
| Configuration.ClaimPlace | internal/k8s/configuration.go:1452-1467 | the in-place claim of a place leaves the holders and configurations that one arbitration step defines |
| Configuration.ClaimRuleHosts | internal/k8s/configuration.go:1452-1467 | claiming the rule hosts of an Ingress one by one is the specified sequence of claims |
| Configuration.ClaimMinionPath | internal/k8s/configuration.go:1607-1626 | one minion's claim of a path updates the minions, child warnings and path holders as the path claim defines |
| Configuration.AddMinion | internal/k8s/configuration.go:1596-1629 | adding a minion of the master's host with its paths is the specified minion step |
| Configuration.FindGlobalListener | internal/k8s/configuration.go:795-803 | the search over the GlobalConfiguration's listeners finds a listener exactly when one of that name and protocol exists, and returns it |
| Configuration.MarkActiveHosts | internal/k8s/configuration.go:1044-1056 | the loop over an Ingress's rules marks each rule host valid exactly when the Ingress holds it |
| Configuration.ActivateHosts | internal/k8s/configuration.go:1044-1056 | Ingress configurations get their valid hosts marked, others are left as they are |
| Configuration.UpdateActiveHostsForIngresses | internal/k8s/configuration.go:1044-1056 | the pass over all configurations gives the configurations the valid-host marking specifies, holders unchanged |
| Configuration.RefreshToLatest | internal/k8s/configuration.go:1023-1028 | the refresh loop replaces each change's configuration by the latest one of the same key, when there is one |
| Configuration.ReportValidationError | internal/k8s/configuration.go:452-477 | the loop attaches the error as the validation-error specification says |
| Configuration.IsRouteListed | internal/k8s/configuration.go:1260-1266 | the search finds the VirtualServerRoute exactly when the configuration lists one of that namespace and name |
| Configuration.CountTLSPassthroughHosts | internal/k8s/configuration.go:1675-1682 | the count is the number of hosts held by TransportServers |
| Configuration.CountListenerHosts | internal/k8s/configuration.go:1684-1690 | TCP counts the listener hosts of TCP TransportServers; UDP counts the rest |
| Configuration.Configuration.BuildVirtualServerRoutes | internal/k8s/configuration.go:1635-1669 | the loop over a VirtualServer's routes returns the routes and warnings the route resolution specifies |
| Configuration.Configuration.BuildMinionConfigs | internal/k8s/configuration.go:1588-1633 | the loop over the sorted Ingresses returns the minions and child warnings the minion specification gives |
| Configuration.Configuration.BuildIngressConfiguration | internal/k8s/configuration.go:1443-1448 | a master gets its minions, any other Ingress a regular configuration |
| Configuration.Configuration.AddIngressHosts | internal/k8s/configuration.go:1449-1467 | one Ingress is registered and claims its rule hosts as the Ingress step specifies |
| Configuration.Configuration.AddVirtualServerHost | internal/k8s/configuration.go:1475-1500 | one VirtualServer is registered with its routes and claims its host as specified |
| Configuration.Configuration.AddTransportServerHost | internal/k8s/configuration.go:1508-1530 | one TLS Passthrough TransportServer is registered and claims its host as specified |
| Configuration.Configuration.BuildIngressHosts | internal/k8s/configuration.go:1426-1468 | the loop over the sorted Ingresses is the Ingress pass |
| Configuration.Configuration.BuildVirtualServerHosts | internal/k8s/configuration.go:1472-1501 | the loop over the sorted VirtualServers is the VirtualServer pass |
| Configuration.Configuration.BuildTransportServerHosts | internal/k8s/configuration.go:1503-1531 | the loop over the sorted TransportServers is the TLS Passthrough pass |
| Configuration.Configuration.BuildHostsAndResources | internal/k8s/configuration.go:1419-1534 | the hosts and configurations built are those the host specification gives, so every arbitration property holds of them |
| Configuration.Configuration.AddListenerHost | internal/k8s/configuration.go:785-830 | one TransportServer is bound to its listener, if defined, and claims its listener-host pair as specified |
| Configuration.Configuration.BuildListenerHostsAndTSConfigurations | internal/k8s/configuration.go:780-834 | the listener hosts and TransportServer configurations built are those the listener specification gives |
| Configuration.Configuration.AddWarningsForVirtualServersWithMissConfiguredListeners | internal/k8s/configuration.go:1162-1208 | the loop over the sorted configurations leaves the configurations warned as the corrected listener pass specifies, each VirtualServer warned itself |
| Configuration.Configuration.WarnAboutListeners | internal/k8s/configuration.go:1164-1206 | the configuration of the VirtualServer under check (the corrected target) is warned as its listener check says |
| Configuration.Configuration.AddProblemsForResourcesWithoutActiveHost | internal/k8s/configuration.go:1114-1160 | the loop records, for each configuration not holding its hosts, the Rejected problem |
| Configuration.Configuration.RecordHostProblem | internal/k8s/configuration.go:1115-1159 | one configuration's problem, if any, is recorded |
| Configuration.Configuration.AddProblemsForOrphanMinions | internal/k8s/configuration.go:1217-1239 | the loop records NoIngressMasterFound for every minion whose host no master holds |
| Configuration.Configuration.RecordOrphanMinionProblem | internal/k8s/configuration.go:1218-1238 | one minion's problem, if any, is recorded |
| Configuration.Configuration.AddProblemsForOrphanOrIgnoredVsrs | internal/k8s/configuration.go:1241-1279 | the loop records NoVirtualServerFound or Ignored for every VirtualServerRoute not used by the VirtualServer holding its host |
| Configuration.Configuration.RecordOrphanRouteProblem | internal/k8s/configuration.go:1242-1278 | one VirtualServerRoute's problem, if any, is recorded |
| Configuration.Configuration.AddProblemsForTSConfigsWithoutActiveListener | internal/k8s/configuration.go:1078-1112 | the loop records a Rejected problem for every TransportServer configuration without its listener-host pair |
| Configuration.Configuration.RecordListenerProblem | internal/k8s/configuration.go:1079-1111 | one TransportServer configuration's problem, if any, is recorded |
| Configuration.Configuration.GetTransportServerMetrics | internal/k8s/configuration.go:1672-1693 | TLS Passthrough counts the hosts held by TransportServers (zero when disabled), TCP the TCP listener hosts, and TCP and UDP together all listener hosts |
| Configuration.Configuration.SetGlobalConfigListenerMap | internal/k8s/configuration.go:1695-1703 | the listener map becomes that of the GlobalConfiguration, empty without one, and nothing else changes |
| Configuration.Configuration.RebuildHostsAndResources | internal/k8s/configuration.go:1007-1034 | the built, marked and warned holders and configurations are those the rebuild specification gives |
| Configuration.Configuration.HostChangesTo | internal/k8s/configuration.go:1012-1028 | the diff, creation, squash and refresh of the host changes give the specified changes |
| Configuration.Configuration.FindHostProblems | internal/k8s/configuration.go:1029-1033 | the three problem passes give the specified host problems |
| Configuration.Configuration.RebuildHosts | internal/k8s/configuration.go:1007-1042 | the hosts and host problems become those of a rebuild of the store; the store and listener state stay; the changes and new or changed problems are the specified ones |
| Configuration.Configuration.UpdateHostProblems | internal/k8s/configuration.go:1036-1041 | the host problems are replaced by the new ones and the new or changed problems are reported |
| Configuration.Configuration.ListenerChangesTo | internal/k8s/configuration.go:751-766 | the diff, creation, squash and corrected refresh by "namespace/name" of the listener changes give the specified changes |
| Configuration.Configuration.RebuildListenerHosts | internal/k8s/configuration.go:748-778 | the listener hosts and listener problems become those of a rebuild of the TransportServers; the store and host state stay; the changes and problems are the specified ones |
| Configuration.Configuration.UpdateListenerProblems | internal/k8s/configuration.go:768-777 | the listener problems are replaced by the new ones and the new or changed problems are reported |
| Configuration.Configuration.constructor | internal/k8s/configuration.go:387-429 | a new configuration stores nothing, holds nothing, has no problems, and is consistent |
| Configuration.Configuration.AddOrUpdateIngress | internal/k8s/configuration.go:432-480 | an Ingress of the right class without a validation error is stored under "namespace/name", any other is removed; the hosts are rebuilt and the consistency invariant kept; a validation error is attached; an update that changes nothing reports nothing |
| Configuration.Configuration.StoreIngress | internal/k8s/configuration.go:436-448 | the Ingress is stored when accepted and removed otherwise; nothing else changes |
| Configuration.Configuration.RemoveIngress | internal/k8s/configuration.go:492 | the Ingress is removed and nothing else changes |
| Configuration.Configuration.RebuildValidHosts | internal/k8s/configuration.go:450 | after a store change the host rebuild restores the consistency invariant and reports the specified changes and problems |
| Configuration.Configuration.DeleteIngress | internal/k8s/configuration.go:483-495 | deleting an absent key changes nothing and reports nothing; otherwise the Ingress is removed and the hosts rebuilt |
| Configuration.Configuration.AddOrUpdateVirtualServer | internal/k8s/configuration.go:498-546 | a VirtualServer of the right class without a validation error is stored under "namespace/name", any other is removed; the hosts are rebuilt; a validation error is attached with its message |
| Configuration.Configuration.StoreVirtualServer | internal/k8s/configuration.go:502-514 | the VirtualServer is stored when accepted and removed otherwise; nothing else changes |
| Configuration.Configuration.RemoveVirtualServer | internal/k8s/configuration.go:558 | the VirtualServer is removed and nothing else changes |
| Configuration.Configuration.DeleteVirtualServer | internal/k8s/configuration.go:549-561 | deleting an absent key changes nothing and reports nothing; otherwise the VirtualServer is removed and the hosts rebuilt |
| Configuration.Configuration.AddOrUpdateVirtualServerRoute | internal/k8s/configuration.go:564-595 | a VirtualServerRoute of the right class without a validation error is stored, any other is removed; the hosts are rebuilt; a validation error is always reported as a Rejected problem |
| Configuration.Configuration.StoreVirtualServerRoute | internal/k8s/configuration.go:568-580 | the VirtualServerRoute is stored when accepted and removed otherwise; nothing else changes |
| Configuration.Configuration.RemoveVirtualServerRoute | internal/k8s/configuration.go:607 | the VirtualServerRoute is removed and nothing else changes |
| Configuration.Configuration.DeleteVirtualServerRoute | internal/k8s/configuration.go:598-610 | deleting an absent key changes nothing and reports nothing; otherwise the VirtualServerRoute is removed and the hosts rebuilt |
| Configuration.Configuration.RebuildAfterTransportServers | internal/k8s/configuration.go:684-691 | the listener hosts are rebuilt, then the hosts only with TLS Passthrough; the consistency invariant is restored |
| Configuration.Configuration.AddOrUpdateTransportServer | internal/k8s/configuration.go:667-722 | a TransportServer of the right class without a validation error is stored, any other is removed; listener hosts, and with TLS Passthrough the hosts, are rebuilt; a validation error is attached |
| Configuration.Configuration.StoreTransportServer | internal/k8s/configuration.go:671-682 | the TransportServer is stored when accepted and removed otherwise; nothing else changes |
| Configuration.Configuration.RemoveTransportServer | internal/k8s/configuration.go:734 | the TransportServer is removed and nothing else changes |
| Configuration.Configuration.DeleteTransportServer | internal/k8s/configuration.go:725-746 | deleting an absent key changes nothing and reports nothing; otherwise the TransportServer is removed and the listener hosts, and with TLS Passthrough the hosts, are rebuilt |
| Configuration.Configuration.ReplaceGlobalConfiguration | internal/k8s/configuration.go:622-634 | the GlobalConfiguration and its listener map are replaced, then the listener hosts and the hosts are rebuilt, changes appended in that order |
| Configuration.Configuration.AddOrUpdateGlobalConfiguration | internal/k8s/configuration.go:613-635 | the GlobalConfiguration is stored even when invalid, both rebuilds run, and the validation error is returned |
| Configuration.Configuration.DeleteGlobalConfiguration | internal/k8s/configuration.go:638-656 | without a GlobalConfiguration the listener map is empty and both rebuilds run |

## Left out

- Locking: the read-write mutex only serialises calls, and each method is modelled as one atomic step.
- The validators, the ingress-class check and the VirtualServerRoute validator are parameters: the model takes their verdicts and does not implement them.
- The source calls the validator only for a resource of the right class. The model takes the same verdict as an `Option` that matters only when the class is right.
- The cert-manager and ACME challenge conversion (configuration.go:1536-1586) and the merging of challenge VirtualServerRoutes into a VirtualServer are left out: they belong to certificate handling, not to arbitration.
- The queries GetResources, FindResourcesForService, FindResourcesForEndpoints, FindResourcesForSecret, FindResourcesForAppProtect* and GetGlobalConfiguration (configuration.go:855-1000 and 658-665) are read-only lookups outside the arbitration core.
- Kubernetes object fields other than those the engine reads are absent. A problem records its object by key with kind, which is also the key the source stores it under.
- Messages keep the source's text only where they are part of a contract; the fmt formatting of the rest is not modelled.
- Go pointers shared between the map of configurations and the map of places become a holder key per place (`Arbitration.Holding`). A warning shows on the holder through both maps, as it does in the source.
- Rebuild.RebuiltHosts: the source adds the listener warnings after the host comparison, to configurations it shares with the new hosts and the changes. The model adds them first, which gives the same hosts and changes because the comparison ignores warnings.
- Configuration.Configuration.constructor: NewConfiguration leaves the listener problems unset. Go reads an unset map as empty, so the model starts from an empty map.
- A master or minion Ingress without rules, and the missing holder that updateActiveHostsForIngresses and addProblemsForResourcesWithoutActiveHost would dereference, are not modelled as crashes. After the build every rule host has a holder, and a missing first host gives a minion no master.
- Configuration.Configuration.GetTransportServerMetrics: every listener host whose protocol is not "TCP" counts as UDP, as in the source.
- The Python tests and the event recorder that consumes the changes and problems are outside the model.
- The source visits the TransportServers (configuration.go:784) and the configurations warned about listeners (configuration.go:1163) in Go's unspecified map order. The model visits them in ascending key order. Holders and per-configuration warnings do not depend on the order when UIDs differ, which Kubernetes guarantees; only the order of several listener warnings put on one holder by the as-written pass can differ.
- Strings are sequences of characters ordered by code point, standing in for Go's byte-wise string order.
- Changes.DetectChangesInHosts: the updated hosts also list a VirtualServer whose HTTPS IPv4 or IPv6 address changed, which configuration.go:1822-1832 does not compare. This is the corrected comparison of the second finding. The loop as written is Changes.UpdatedHostsAsWritten, characterised over all inputs by Changes.UpdatedHostsAsWrittenMembership and equal to the corrected one when no HTTPS address moves (Changes.UpdatedHostsAgree).
- Changes.AppendHostUpdatesWhenChanged: states the corrected comparison, whose HostChanged includes the HTTPS addresses; the code as written is stated by Changes.HostUpdatesAsWrittenProperties.
- Changes.UpdatedHostsMembership: characterises the corrected updated hosts; the membership as written, with the HTTPS addresses ignored, is Changes.UpdatedHostsAsWrittenMembership.
- Configuration.Configuration.WarnAboutListeners: warns the configuration of the VirtualServer under check, whereas configuration.go:1185 and 1193 warn the holder of that VirtualServer's host. The two agree whenever each VirtualServer holds its own host (Rebuild.ListenerWarningsAgree). The pass as written is Rebuild.ListenerWarningsAsWritten, and Rebuild.ListenerWarningMisdirected shows where they differ.
- Configuration.Configuration.AddWarningsForVirtualServersWithMissConfiguredListeners: ends in the corrected listener pass Rebuild.ListenerWarnings, not the pass as written, for the same reason.
- Rebuild.RebuiltHosts: uses the corrected listener warnings. So do Configuration.Configuration.RebuildHostsAndResources, the hosts of every store operation, and the hosts that Valid() requires. On the input of the third finding they hold the warning on the VirtualServer, not on the holder of its host.
- Rebuild.ListenerChanges: refreshes each listener change from the latest configuration stored under "namespace/name" (RefreshChanges with byResourceKey true). The code as written, at configuration.go:761-766, never refreshes, as Rebuild.ListenerRefreshNeverHits proves.
- Configuration.Configuration.ListenerChangesTo: computes the changes of Rebuild.ListenerChanges, so the changes returned by Configuration.Configuration.RebuildListenerHosts carry the latest warnings. The same holds for the TransportServer and GlobalConfiguration store operations. On the input of the first finding the delete carries the "taken" warning, which the code as written drops.
- Configuration.Configuration.HostChangesTo: uses the corrected host comparison of Changes.DetectChangesInHosts; the same holds for Configuration.Configuration.RebuildHosts and every store operation that rebuilds the hosts.

## Findings

| source | as written | input that shows it | evidently intended | confidence | as-written member | corrected member |
|---|---|---|---|---|---|---|
| internal/k8s/configuration.go:761-766 | the listener changes are refreshed by looking up each change's key with kind in the new TransportServer configurations, which are keyed by "namespace/name", so no change is ever refreshed | TransportServer default/a loses its listener-host pair to an older one: the delete change keeps the configuration without the "is taken by another resource" warning | refresh each change from the configuration of its own TransportServer, as the comment above the loop promises | not executed | Rebuild.ListenerRefreshNeverHits | Rebuild.ListenerRefreshProperties |
| internal/k8s/configuration.go:1822-1832 | detectChangesInHosts compares the HTTP and HTTPS ports and the HTTP addresses of a VirtualServer, but not its HTTPS IPv4 and IPv6 addresses | a VirtualServer whose HTTPS listener moves from 10.0.0.1 to 10.0.0.2 with nothing else changed gets no update | an HTTPS address change updates the host, as an HTTP address change does | not executed | Changes.HttpsAddressChangeMissed | Changes.HostUpdatesProperties |
| internal/k8s/configuration.go:1162-1208 | the listener warnings go to the configuration holding the VirtualServer's host rather than to the VirtualServer | VirtualServer default/b with listeners and no GlobalConfiguration loses cafe.example.com to default/a: default/a gets the warning and default/b none | warn the VirtualServer whose listeners are misconfigured | not executed | Rebuild.ListenerWarningMisdirected | Rebuild.ListenerWarningsProperties |
