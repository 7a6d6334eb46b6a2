/**
  Change computation: comparing the old and the new winners of hosts and
  listeners, turning the differences into resource changes (deletes first),
  squashing changes per resource, and diffing problem maps.
 */
module Changes {
  import opened Ordering
  import opened Resources

  // ---- Hosts ----

  /** Two VirtualServer configurations listen on the same ports and addresses. */
  predicate SameListenerBinding(oldR: Resource, newR: Resource)
    requires oldR.VirtualServerConfiguration? && newR.VirtualServerConfiguration?
  {
    oldR.(virtualServer := newR.virtualServer, virtualServerRoutes := newR.virtualServerRoutes, warnings := newR.warnings) == newR
  }

  /**
    A host held before and after must be regenerated: the configuration
    differs for NGINX, or a VirtualServer moved to other listener ports or
    addresses.
   */
  predicate HostChanged(oldR: Resource, newR: Resource) {
    || !oldR.IsEqual(newR)
    || (oldR.VirtualServerConfiguration? && newR.VirtualServerConfiguration? && !SameListenerBinding(oldR, newR))
  }

  /**
    The entries appended to the updated hosts for a host held before and
    after, as the loop of detectChangesInHosts is written: the HTTPS
    addresses are not compared.
   */
  function HostUpdatesAsWritten(h: string, oldR: Resource, newR: Resource): seq<string> {
    if !oldR.IsEqual(newR) then [h]
    else if !(newR.VirtualServerConfiguration? && oldR.VirtualServerConfiguration?) then []
    else
      (if newR.httpPort != oldR.httpPort || newR.httpsPort != oldR.httpsPort then [h] else [])
      + (if newR.httpIPv4 != oldR.httpIPv4 then [h] else [])
      + (if newR.httpIPv6 != oldR.httpIPv6 then [h] else [])
  }

  /**
    `acc` extended by the entries the loop of detectChangesInHosts appends
    for a host held before and after, with the HTTPS addresses compared too:
    one entry when the configuration differs for NGINX, otherwise one per
    differing port pair and address of a VirtualServer.
   */
  function AppendHostUpdates(acc: seq<string>, h: string, oldR: Resource, newR: Resource): seq<string> {
    if !oldR.IsEqual(newR) then acc + [h]
    else if !(newR.VirtualServerConfiguration? && oldR.VirtualServerConfiguration?) then acc
    else
      var a1 := if newR.httpPort != oldR.httpPort || newR.httpsPort != oldR.httpsPort then acc + [h] else acc;
      var a2 := if newR.httpIPv4 != oldR.httpIPv4 then a1 + [h] else a1;
      var a3 := if newR.httpIPv6 != oldR.httpIPv6 then a2 + [h] else a2;
      var a4 := if newR.httpsIPv4 != oldR.httpsIPv4 then a3 + [h] else a3;
      if newR.httpsIPv6 != oldR.httpsIPv6 then a4 + [h] else a4
  }

  /** The entries for a host held before and after, with the HTTPS addresses compared too. */
  function HostUpdates(h: string, oldR: Resource, newR: Resource): seq<string> {
    AppendHostUpdates([], h, oldR, newR)
  }

  /** `r` is `acc` followed by copies of `h`. */
  ghost predicate ExtendsWith(acc: seq<string>, r: seq<string>, h: string) {
    |r| >= |acc| && r[..|acc|] == acc && forall i :: |acc| <= i < |r| ==> r[i] == h
  }

  lemma ExtendsWithStep(acc: seq<string>, r: seq<string>, h: string, c: bool)
    requires ExtendsWith(acc, r, h)
    ensures ExtendsWith(acc, if c then r + [h] else r, h)
  {
    if c {
      assert (r + [h])[..|acc|] == r[..|acc|];
    }
  }

  /** Only the host itself is appended, after the entries already there. */
  lemma AppendHostUpdatesExtends(acc: seq<string>, h: string, oldR: Resource, newR: Resource)
    ensures ExtendsWith(acc, AppendHostUpdates(acc, h, oldR, newR), h)
  {
    assert ExtendsWith(acc, acc, h);
    if !oldR.IsEqual(newR) {
      ExtendsWithStep(acc, acc, h, true);
    } else if newR.VirtualServerConfiguration? && oldR.VirtualServerConfiguration? {
      var c1 := newR.httpPort != oldR.httpPort || newR.httpsPort != oldR.httpsPort;
      var a1 := if c1 then acc + [h] else acc;
      ExtendsWithStep(acc, acc, h, c1);
      var a2 := if newR.httpIPv4 != oldR.httpIPv4 then a1 + [h] else a1;
      ExtendsWithStep(acc, a1, h, newR.httpIPv4 != oldR.httpIPv4);
      var a3 := if newR.httpIPv6 != oldR.httpIPv6 then a2 + [h] else a2;
      ExtendsWithStep(acc, a2, h, newR.httpIPv6 != oldR.httpIPv6);
      var a4 := if newR.httpsIPv4 != oldR.httpsIPv4 then a3 + [h] else a3;
      ExtendsWithStep(acc, a3, h, newR.httpsIPv4 != oldR.httpsIPv4);
      ExtendsWithStep(acc, a4, h, newR.httpsIPv6 != oldR.httpsIPv6);
    }
  }

  /** Something is appended exactly when the host has changed. */
  lemma AppendHostUpdatesWhenChanged(acc: seq<string>, h: string, oldR: Resource, newR: Resource)
    ensures |AppendHostUpdates(acc, h, oldR, newR)| > |acc| <==> HostChanged(oldR, newR)
  {
  }

  /** Only the host itself is appended, and only when it has changed. */
  lemma HostUpdatesProperties(h: string, oldR: Resource, newR: Resource)
    ensures forall x :: x in HostUpdates(h, oldR, newR) ==> x == h
    ensures |HostUpdates(h, oldR, newR)| > 0 <==> HostChanged(oldR, newR)
  {
    AppendHostUpdatesExtends([], h, oldR, newR);
    AppendHostUpdatesWhenChanged([], h, oldR, newR);
    assert HostUpdates(h, oldR, newR)[..0] == [];
  }

  /** Appending entries to `acc` is appending the entries of HostUpdates. */
  lemma AppendHostUpdatesIsConcat(acc: seq<string>, h: string, oldR: Resource, newR: Resource)
    ensures AppendHostUpdates(acc, h, oldR, newR) == acc + HostUpdates(h, oldR, newR)
  {
    AppendHostUpdatesExtends(acc, h, oldR, newR);
    AppendHostUpdatesExtends([], h, oldR, newR);
    AppendHostUpdatesCount(acc, h, oldR, newR);
  }

  /** The number of entries appended does not depend on `acc`. */
  lemma AppendHostUpdatesCount(acc: seq<string>, h: string, oldR: Resource, newR: Resource)
    ensures |AppendHostUpdates(acc, h, oldR, newR)| - |acc| == |HostUpdates(h, oldR, newR)|
  {
  }

  /**
    A VirtualServer whose HTTPS listener moves to another IPv4 address is
    regenerated by the corrected comparison and missed by the one as written.
   */
  lemma HttpsAddressChangeMissed(h: string, vs: VirtualServer)
    ensures var oldR := VirtualServerConfiguration(vs, [], [], 80, 443, "", "", "10.0.0.1", "");
            var newR := oldR.(httpsIPv4 := "10.0.0.2");
            && HostChanged(oldR, newR)
            && HostUpdatesAsWritten(h, oldR, newR) == []
            && HostUpdates(h, oldR, newR) == [h]
  {
    var oldR := VirtualServerConfiguration(vs, [], [], 80, 443, "", "", "10.0.0.1", "");
    var newR := oldR.(httpsIPv4 := "10.0.0.2");
    assert newR.httpsIPv4 != oldR.httpsIPv4 by {
      assert newR.httpsIPv4[7] != oldR.httpsIPv4[7];
    }
  }

  /**
    A host held before and after is regenerated by the loop of
    detectChangesInHosts as written: the configuration differs for NGINX, or
    a VirtualServer moved to other ports or HTTP addresses.
   */
  predicate HostChangedAsWritten(oldR: Resource, newR: Resource) {
    || !oldR.IsEqual(newR)
    || (&& oldR.VirtualServerConfiguration? && newR.VirtualServerConfiguration?
        && (|| newR.httpPort != oldR.httpPort || newR.httpsPort != oldR.httpsPort
            || newR.httpIPv4 != oldR.httpIPv4 || newR.httpIPv6 != oldR.httpIPv6))
  }

  /**
    As written, only the host itself is appended, at most three times, and
    something is appended exactly when the configuration differs for NGINX
    or a port pair or HTTP address of a VirtualServer changed; what the loop
    as written records is also recorded by the corrected comparison.
   */
  lemma HostUpdatesAsWrittenProperties(h: string, oldR: Resource, newR: Resource)
    ensures forall x :: x in HostUpdatesAsWritten(h, oldR, newR) ==> x == h
    ensures |HostUpdatesAsWritten(h, oldR, newR)| <= 3
    ensures |HostUpdatesAsWritten(h, oldR, newR)| > 0 <==> HostChangedAsWritten(oldR, newR)
    ensures HostChangedAsWritten(oldR, newR) ==> HostChanged(oldR, newR)
  {
  }

  /** The updated hosts among `ks` as the loop of detectChangesInHosts is written. */
  function UpdatedHostsAsWritten(ks: seq<string>, oldHosts: map<string, Resource>, newHosts: map<string, Resource>): seq<string> {
    if |ks| == 0 then []
    else
      var h := ks[|ks| - 1];
      var p := UpdatedHostsAsWritten(ks[..|ks| - 1], oldHosts, newHosts);
      if h in oldHosts && h in newHosts then p + HostUpdatesAsWritten(h, oldHosts[h], newHosts[h]) else p
  }

  /**
    As written, a host is listed as updated exactly when it is held before
    and after, and its configuration differs for NGINX or its VirtualServer
    changed a port or an HTTP address; an HTTPS address change alone never
    lists it.
   */
  lemma {:induction false} UpdatedHostsAsWrittenMembership(ks: seq<string>, oldHosts: map<string, Resource>, newHosts: map<string, Resource>)
    ensures forall x :: x in UpdatedHostsAsWritten(ks, oldHosts, newHosts) <==>
      x in ks && x in oldHosts && x in newHosts && HostChangedAsWritten(oldHosts[x], newHosts[x])
  {
    if |ks| > 0 {
      var prefix := ks[..|ks| - 1];
      var h := ks[|ks| - 1];
      UpdatedHostsAsWrittenMembership(prefix, oldHosts, newHosts);
      assert ks == prefix + [h];
      if h in oldHosts && h in newHosts {
        HostUpdatesAsWrittenProperties(h, oldHosts[h], newHosts[h]);
      }
    }
  }

  /**
    As written, a VirtualServer whose HTTP port and HTTP IPv4 address both
    change is listed as updated twice.
   */
  lemma UpdatedHostsAsWrittenRepeats(h: string, vs: VirtualServer)
    ensures var oldR := VirtualServerConfiguration(vs, [], [], 80, 443, "10.0.0.1", "", "", "");
            var newR := oldR.(httpPort := 8080, httpIPv4 := "10.0.0.2");
            UpdatedHostsAsWritten([h], map[h := oldR], map[h := newR]) == [h, h]
  {
    var oldR := VirtualServerConfiguration(vs, [], [], 80, 443, "10.0.0.1", "", "", "");
    var newR := oldR.(httpPort := 8080, httpIPv4 := "10.0.0.2");
    assert newR.httpIPv4 != oldR.httpIPv4 by {
      assert newR.httpIPv4[7] != oldR.httpIPv4[7];
    }
    assert [h][..0] == [];
  }

  /** Without an HTTPS address change the two comparisons record the same entries. */
  lemma HostUpdatesAgree(h: string, oldR: Resource, newR: Resource)
    requires oldR.VirtualServerConfiguration? && newR.VirtualServerConfiguration? ==>
      oldR.httpsIPv4 == newR.httpsIPv4 && oldR.httpsIPv6 == newR.httpsIPv6
    ensures HostUpdatesAsWritten(h, oldR, newR) == HostUpdates(h, oldR, newR)
  {
    if oldR.IsEqual(newR) && newR.VirtualServerConfiguration? && oldR.VirtualServerConfiguration? {
      var e1: seq<string> := if newR.httpPort != oldR.httpPort || newR.httpsPort != oldR.httpsPort then [h] else [];
      var e2: seq<string> := if newR.httpIPv4 != oldR.httpIPv4 then [h] else [];
      var e3: seq<string> := if newR.httpIPv6 != oldR.httpIPv6 then [h] else [];
      assert HostUpdates(h, oldR, newR) == [] + e1 + e2 + e3;
      assert [] + e1 + e2 + e3 == e1 + e2 + e3;
    }
  }

  /**
    When no VirtualServer held before and after moved its HTTPS addresses,
    the updated hosts as written are those of the corrected comparison.
   */
  lemma {:induction false} UpdatedHostsAgree(ks: seq<string>, oldHosts: map<string, Resource>, newHosts: map<string, Resource>)
    requires forall h :: h in ks && h in oldHosts && h in newHosts
                         && oldHosts[h].VirtualServerConfiguration? && newHosts[h].VirtualServerConfiguration? ==>
               oldHosts[h].httpsIPv4 == newHosts[h].httpsIPv4 && oldHosts[h].httpsIPv6 == newHosts[h].httpsIPv6
    ensures UpdatedHostsAsWritten(ks, oldHosts, newHosts) == UpdatedHosts(ks, oldHosts, newHosts)
  {
    if |ks| > 0 {
      var prefix := ks[..|ks| - 1];
      var h := ks[|ks| - 1];
      assert forall x :: x in prefix ==> x in ks;
      UpdatedHostsAgree(prefix, oldHosts, newHosts);
      if h in oldHosts && h in newHosts {
        HostUpdatesAgree(h, oldHosts[h], newHosts[h]);
        AppendHostUpdatesIsConcat(UpdatedHosts(prefix, oldHosts, newHosts), h, oldHosts[h], newHosts[h]);
      }
    }
  }

  /** The updated hosts among `ks`, in their order, each as often as it is appended. */
  function UpdatedHosts(ks: seq<string>, oldHosts: map<string, Resource>, newHosts: map<string, Resource>): seq<string> {
    if |ks| == 0 then []
    else
      var h := ks[|ks| - 1];
      var p := UpdatedHosts(ks[..|ks| - 1], oldHosts, newHosts);
      if h in oldHosts && h in newHosts then AppendHostUpdates(p, h, oldHosts[h], newHosts[h]) else p
  }

  lemma UpdatedHostsStep(ks: seq<string>, i: nat, oldHosts: map<string, Resource>, newHosts: map<string, Resource>)
    requires i < |ks|
    ensures var h := ks[i];
      && (h in oldHosts && h in newHosts ==>
            UpdatedHosts(ks[..i + 1], oldHosts, newHosts) == AppendHostUpdates(UpdatedHosts(ks[..i], oldHosts, newHosts), h, oldHosts[h], newHosts[h]))
      && (!(h in oldHosts && h in newHosts) ==>
            UpdatedHosts(ks[..i + 1], oldHosts, newHosts) == UpdatedHosts(ks[..i], oldHosts, newHosts))
  {
    assert ks[..i + 1][..i] == ks[..i];
  }

  /** A host is listed as updated exactly when it is held before and after and has changed. */
  lemma {:induction false} UpdatedHostsMembership(ks: seq<string>, oldHosts: map<string, Resource>, newHosts: map<string, Resource>)
    ensures forall x :: x in UpdatedHosts(ks, oldHosts, newHosts) <==>
      x in ks && x in oldHosts && x in newHosts && HostChanged(oldHosts[x], newHosts[x])
  {
    if |ks| > 0 {
      var prefix := ks[..|ks| - 1];
      var h := ks[|ks| - 1];
      UpdatedHostsMembership(prefix, oldHosts, newHosts);
      assert ks == prefix + [h];
      if h in oldHosts && h in newHosts {
        AppendHostUpdatesIsConcat(UpdatedHosts(prefix, oldHosts, newHosts), h, oldHosts[h], newHosts[h]);
        HostUpdatesProperties(h, oldHosts[h], newHosts[h]);
      }
    }
  }

  /** Ascending, except that an element may repeat. */
  ghost predicate NonDecreasing(u: seq<string>) {
    forall i, j :: 0 <= i < j < |u| ==> u[i] == u[j] || StrLess(u[i], u[j])
  }

  lemma AppendBlock(p: seq<string>, tail: seq<string>, h: string)
    requires NonDecreasing(p)
    requires forall x :: x in p ==> StrLess(x, h)
    requires forall x :: x in tail ==> x == h
    ensures NonDecreasing(p + tail)
  {
    var u := p + tail;
    forall i, j | 0 <= i < j < |u| ensures u[i] == u[j] || StrLess(u[i], u[j]) {
      if j < |p| {
        assert u[i] == p[i] && u[j] == p[j];
      } else if i < |p| {
        assert u[i] == p[i] && u[j] == tail[j - |p|];
        assert p[i] in p && tail[j - |p|] in tail;
      } else {
        assert u[i] == tail[i - |p|] && u[j] == tail[j - |p|];
        assert tail[i - |p|] in tail && tail[j - |p|] in tail;
      }
    }
  }

  /** Hosts are listed in ascending order, repetitions of a host next to each other. */
  lemma {:induction false} UpdatedHostsAscending(ks: seq<string>, oldHosts: map<string, Resource>, newHosts: map<string, Resource>)
    requires Sorted(ks, StrLess)
    ensures NonDecreasing(UpdatedHosts(ks, oldHosts, newHosts))
  {
    if |ks| > 0 {
      var prefix := ks[..|ks| - 1];
      var h := ks[|ks| - 1];
      var p := UpdatedHosts(prefix, oldHosts, newHosts);
      var tail: seq<string> := if h in oldHosts && h in newHosts then HostUpdates(h, oldHosts[h], newHosts[h]) else [];
      if h in oldHosts && h in newHosts {
        AppendHostUpdatesIsConcat(p, h, oldHosts[h], newHosts[h]);
        HostUpdatesProperties(h, oldHosts[h], newHosts[h]);
      } else {
        assert p + tail == p;
      }
      UpdatedHostsAscending(prefix, oldHosts, newHosts);
      UpdatedHostsMembership(prefix, oldHosts, newHosts);
      forall x | x in p ensures StrLess(x, h) {
        var k :| 0 <= k < |prefix| && prefix[k] == x;
        assert ks[k] == x;
      }
      AppendBlock(p, tail, h);
    }
  }

  /**
    Compares the hosts before and after a rebuild: the hosts no longer held,
    the hosts still held whose configuration changed, and the new hosts,
    each in ascending order.
   */
  method DetectChangesInHosts(oldHosts: map<string, Resource>, newHosts: map<string, Resource>)
    returns (removedHosts: seq<string>, updatedHosts: seq<string>, addedHosts: seq<string>)
    ensures removedHosts == SortedStrings(oldHosts.Keys - newHosts.Keys)
    ensures addedHosts == SortedStrings(newHosts.Keys - oldHosts.Keys)
    ensures updatedHosts == UpdatedHosts(SortedStrings(newHosts.Keys), oldHosts, newHosts)
  {
    var oldKeys := SortedStringKeys(oldHosts);
    removedHosts := [];
    for i := 0 to |oldKeys|
      invariant removedHosts == Without(oldKeys[..i], newHosts.Keys)
    {
      WithoutStep(oldKeys, i, newHosts.Keys);
      if oldKeys[i] !in newHosts {
        removedHosts := removedHosts + [oldKeys[i]];
      }
    }
    assert oldKeys[..|oldKeys|] == oldKeys;
    SortedStringsWithout(oldKeys, oldHosts.Keys, newHosts.Keys);

    var newKeys := SortedStringKeys(newHosts);
    addedHosts := [];
    for i := 0 to |newKeys|
      invariant addedHosts == Without(newKeys[..i], oldHosts.Keys)
    {
      WithoutStep(newKeys, i, oldHosts.Keys);
      if newKeys[i] !in oldHosts {
        addedHosts := addedHosts + [newKeys[i]];
      }
    }
    assert newKeys[..|newKeys|] == newKeys;
    SortedStringsWithout(newKeys, newHosts.Keys, oldHosts.Keys);

    updatedHosts := [];
    for i := 0 to |newKeys|
      invariant updatedHosts == UpdatedHosts(newKeys[..i], oldHosts, newHosts)
    {
      var h := newKeys[i];
      UpdatedHostsStep(newKeys, i, oldHosts, newHosts);
      if h !in oldHosts {
        continue;
      }
      var oldR := oldHosts[h];
      var newR := newHosts[h];
      if !oldR.IsEqual(newR) {
        updatedHosts := updatedHosts + [h];
        continue;
      }
      if !(newR.VirtualServerConfiguration? && oldR.VirtualServerConfiguration?) {
        continue;
      }
      if newR.httpPort != oldR.httpPort || newR.httpsPort != oldR.httpsPort {
        updatedHosts := updatedHosts + [h];
      }
      if newR.httpIPv4 != oldR.httpIPv4 {
        updatedHosts := updatedHosts + [h];
      }
      if newR.httpIPv6 != oldR.httpIPv6 {
        updatedHosts := updatedHosts + [h];
      }
      if newR.httpsIPv4 != oldR.httpsIPv4 {
        updatedHosts := updatedHosts + [h];
      }
      if newR.httpsIPv6 != oldR.httpsIPv6 {
        updatedHosts := updatedHosts + [h];
      }
    }
    assert newKeys[..|newKeys|] == newKeys;
  }

  // ---- Listeners ----

  /** The listener-host keys held before and after whose TransportServer configuration changed. */
  ghost function UpdatedListenerHostKeys(oldListeners: map<ListenerHostKey, Resource>, newListeners: map<ListenerHostKey, Resource>): set<ListenerHostKey> {
    set k | k in oldListeners && k in newListeners && !oldListeners[k].IsEqual(newListeners[k])
  }

  /**
    Compares the listener hosts before and after a rebuild; each list is in
    ascending order of "listener|host".
   */
  method DetectChangesInListenerHosts(oldListeners: map<ListenerHostKey, Resource>, newListeners: map<ListenerHostKey, Resource>)
    returns (removedListeners: seq<ListenerHostKey>, updatedListeners: seq<ListenerHostKey>, addedListeners: seq<ListenerHostKey>)
    ensures removedListeners == SortedListenerHostKeys(oldListeners.Keys - newListeners.Keys)
    ensures updatedListeners == SortedListenerHostKeys(UpdatedListenerHostKeys(oldListeners, newListeners))
    ensures addedListeners == SortedListenerHostKeys(newListeners.Keys - oldListeners.Keys)
  {
    var oldKeys := SortedListenerHostKeyList(oldListeners);
    var newKeys := SortedListenerHostKeyList(newListeners);
    ghost var sameKeys := newListeners.Keys - UpdatedListenerHostKeys(oldListeners, newListeners);

    removedListeners := [];
    for i := 0 to |oldKeys|
      invariant removedListeners == Without(oldKeys[..i], newListeners.Keys)
    {
      WithoutStep(oldKeys, i, newListeners.Keys);
      if oldKeys[i] !in newListeners {
        removedListeners := removedListeners + [oldKeys[i]];
      }
    }
    assert oldKeys[..|oldKeys|] == oldKeys;
    SortedListenerHostKeysWithout(oldKeys, oldListeners.Keys, newListeners.Keys);

    updatedListeners := [];
    addedListeners := [];
    for i := 0 to |newKeys|
      invariant addedListeners == Without(newKeys[..i], oldListeners.Keys)
      invariant updatedListeners == Without(newKeys[..i], sameKeys)
    {
      var key := newKeys[i];
      WithoutStep(newKeys, i, oldListeners.Keys);
      WithoutStep(newKeys, i, sameKeys);
      if key !in oldListeners {
        addedListeners := addedListeners + [key];
      } else {
        var oldConfig := oldListeners[key];
        if !oldConfig.IsEqual(newListeners[key]) {
          updatedListeners := updatedListeners + [key];
        }
      }
    }
    assert newKeys[..|newKeys|] == newKeys;
    SortedListenerHostKeysWithout(newKeys, newListeners.Keys, oldListeners.Keys);
    SortedListenerHostKeysWithout(newKeys, newListeners.Keys, sameKeys);
    assert newListeners.Keys - sameKeys == UpdatedListenerHostKeys(oldListeners, newListeners);
  }

  // ---- Resource changes ----

  /** A delete of the old holder of each key. */
  function DeletesOf<K>(keys: seq<K>, m: map<K, Resource>): seq<ResourceChange>
    requires forall k :: k in keys ==> k in m
  {
    if |keys| == 0 then []
    else DeletesOf(keys[..|keys| - 1], m) + [ResourceChange(Delete, m[keys[|keys| - 1]], "")]
  }

  /** A delete of the old holder of each updated key that changed hands. */
  function DisplacedOf<K>(keys: seq<K>, oldM: map<K, Resource>, newM: map<K, Resource>): seq<ResourceChange>
    requires forall k :: k in keys ==> k in oldM && k in newM
  {
    if |keys| == 0 then []
    else
      var k := keys[|keys| - 1];
      DisplacedOf(keys[..|keys| - 1], oldM, newM)
        + (if oldM[k].GetKeyWithKind() != newM[k].GetKeyWithKind() then [ResourceChange(Delete, oldM[k], "")] else [])
  }

  /** An add-or-update of the new holder of each key. */
  function AddOrUpdatesOf<K>(keys: seq<K>, m: map<K, Resource>): seq<ResourceChange>
    requires forall k :: k in keys ==> k in m
  {
    if |keys| == 0 then []
    else AddOrUpdatesOf(keys[..|keys| - 1], m) + [ResourceChange(AddOrUpdate, m[keys[|keys| - 1]], "")]
  }

  /** The changes for removed, updated and added hosts or listeners: all deletes, then all add-or-updates. */
  function ResourceChangesFor<K>(removed: seq<K>, updated: seq<K>, added: seq<K>, oldM: map<K, Resource>, newM: map<K, Resource>): seq<ResourceChange>
    requires forall k :: k in removed ==> k in oldM
    requires forall k :: k in updated ==> k in oldM && k in newM
    requires forall k :: k in added ==> k in newM
  {
    DeletesOf(removed, oldM) + DisplacedOf(updated, oldM, newM) + AddOrUpdatesOf(updated, newM) + AddOrUpdatesOf(added, newM)
  }

  lemma AppendAssociative<T>(a: seq<T>, b: seq<T>, c: seq<T>)
    ensures a + b + c == a + (b + c)
  {
  }

  lemma DeletesOfStep<K>(keys: seq<K>, m: map<K, Resource>, i: nat)
    requires forall k :: k in keys ==> k in m
    requires i < |keys|
    ensures DeletesOf(keys[..i + 1], m) == DeletesOf(keys[..i], m) + [ResourceChange(Delete, m[keys[i]], "")]
  {
    assert keys[..i + 1][..i] == keys[..i];
  }

  lemma DisplacedOfStep<K>(keys: seq<K>, oldM: map<K, Resource>, newM: map<K, Resource>, i: nat)
    requires forall k :: k in keys ==> k in oldM && k in newM
    requires i < |keys|
    ensures var k := keys[i];
      && (oldM[k].GetKeyWithKind() != newM[k].GetKeyWithKind() ==>
            DisplacedOf(keys[..i + 1], oldM, newM) == DisplacedOf(keys[..i], oldM, newM) + [ResourceChange(Delete, oldM[k], "")])
      && (oldM[k].GetKeyWithKind() == newM[k].GetKeyWithKind() ==>
            DisplacedOf(keys[..i + 1], oldM, newM) == DisplacedOf(keys[..i], oldM, newM))
  {
    assert keys[..i + 1][..i] == keys[..i];
  }

  lemma AddOrUpdatesOfStep<K>(keys: seq<K>, m: map<K, Resource>, i: nat)
    requires forall k :: k in keys ==> k in m
    requires i < |keys|
    ensures AddOrUpdatesOf(keys[..i + 1], m) == AddOrUpdatesOf(keys[..i], m) + [ResourceChange(AddOrUpdate, m[keys[i]], "")]
  {
    assert keys[..i + 1][..i] == keys[..i];
  }

  lemma {:induction false} DeletesOfProperties<K>(keys: seq<K>, m: map<K, Resource>)
    requires forall k :: k in keys ==> k in m
    ensures var r := DeletesOf(keys, m);
            && |r| == |keys|
            && forall i :: 0 <= i < |keys| ==> r[i] == ResourceChange(Delete, m[keys[i]], "")
  {
    if |keys| > 0 {
      DeletesOfProperties(keys[..|keys| - 1], m);
    }
  }

  lemma {:induction false} DisplacedOfProperties<K>(keys: seq<K>, oldM: map<K, Resource>, newM: map<K, Resource>)
    requires forall k :: k in keys ==> k in oldM && k in newM
    ensures var r := DisplacedOf(keys, oldM, newM);
            && (forall c :: c in r ==>
                  && c.op == Delete && c.error == ""
                  && exists k :: k in keys && c.resource == oldM[k] && oldM[k].GetKeyWithKind() != newM[k].GetKeyWithKind())
            && (forall k :: k in keys && oldM[k].GetKeyWithKind() != newM[k].GetKeyWithKind() ==>
                  ResourceChange(Delete, oldM[k], "") in r)
  {
    if |keys| > 0 {
      var prefix := keys[..|keys| - 1];
      DisplacedOfProperties(prefix, oldM, newM);
      assert keys == prefix + [keys[|keys| - 1]];
    }
  }

  lemma {:induction false} AddOrUpdatesOfProperties<K>(keys: seq<K>, m: map<K, Resource>)
    requires forall k :: k in keys ==> k in m
    ensures var r := AddOrUpdatesOf(keys, m);
            && |r| == |keys|
            && forall i :: 0 <= i < |keys| ==> r[i] == ResourceChange(AddOrUpdate, m[keys[i]], "")
  {
    if |keys| > 0 {
      AddOrUpdatesOfProperties(keys[..|keys| - 1], m);
    }
  }

  /** The deletes: each of the old holder of a removed or updated key, and each without error. */
  lemma DeletesPartProperties<K>(removed: seq<K>, updated: seq<K>, oldM: map<K, Resource>, newM: map<K, Resource>)
    requires forall k :: k in removed ==> k in oldM
    requires forall k :: k in updated ==> k in oldM && k in newM
    ensures var ds := DeletesOf(removed, oldM) + DisplacedOf(updated, oldM, newM);
            && (forall c :: c in ds ==> c.op == Delete && c.error == "" && exists k :: (k in removed || k in updated) && c.resource == oldM[k])
            && (forall k :: k in removed ==> ResourceChange(Delete, oldM[k], "") in ds)
            && (forall k :: k in updated && oldM[k].GetKeyWithKind() != newM[k].GetKeyWithKind() ==>
                  ResourceChange(Delete, oldM[k], "") in ds)
  {
    var d1 := DeletesOf(removed, oldM);
    var d2 := DisplacedOf(updated, oldM, newM);
    DeletesOfProperties(removed, oldM);
    DisplacedOfProperties(updated, oldM, newM);
    forall c: ResourceChange | c in d1 ensures c.op == Delete && c.error == "" && exists k :: k in removed && c.resource == oldM[k] {
      var i :| 0 <= i < |d1| && d1[i] == c;
      assert removed[i] in removed;
    }
    forall k | k in removed ensures ResourceChange(Delete, oldM[k], "") in d1 {
      var i :| 0 <= i < |removed| && removed[i] == k;
      assert d1[i] in d1;
    }
  }

  /** The add-or-updates: each of the new holder of an updated or added key, and each without error. */
  lemma AddsPartProperties<K>(updated: seq<K>, added: seq<K>, newM: map<K, Resource>)
    requires forall k :: k in updated ==> k in newM
    requires forall k :: k in added ==> k in newM
    ensures var us := AddOrUpdatesOf(updated, newM) + AddOrUpdatesOf(added, newM);
            && (forall c :: c in us ==> c.op == AddOrUpdate && c.error == "" && exists k :: (k in updated || k in added) && c.resource == newM[k])
            && (forall k :: k in updated || k in added ==> ResourceChange(AddOrUpdate, newM[k], "") in us)
  {
    var a1 := AddOrUpdatesOf(updated, newM);
    var a2 := AddOrUpdatesOf(added, newM);
    AddOrUpdatesOfProperties(updated, newM);
    AddOrUpdatesOfProperties(added, newM);
    forall c: ResourceChange | c in a1 + a2 ensures c.op == AddOrUpdate && c.error == "" && exists k :: (k in updated || k in added) && c.resource == newM[k] {
      if c in a1 {
        var i :| 0 <= i < |a1| && a1[i] == c;
        assert updated[i] in updated;
      } else {
        var i :| 0 <= i < |a2| && a2[i] == c;
        assert added[i] in added;
      }
    }
    forall k | k in updated || k in added ensures ResourceChange(AddOrUpdate, newM[k], "") in a1 + a2 {
      if k in updated {
        var i :| 0 <= i < |updated| && updated[i] == k;
        assert a1[i] in a1;
      } else {
        var i :| 0 <= i < |added| && added[i] == k;
        assert a2[i] in a2;
      }
    }
  }

  /**
    No add-or-update precedes a delete; every removed key and every updated
    key that changed hands yields a delete of its old holder, every updated
    and added key an add-or-update of its new holder, and nothing else is
    produced.
   */
  lemma ResourceChangesForProperties<K>(removed: seq<K>, updated: seq<K>, added: seq<K>, oldM: map<K, Resource>, newM: map<K, Resource>)
    requires forall k :: k in removed ==> k in oldM
    requires forall k :: k in updated ==> k in oldM && k in newM
    requires forall k :: k in added ==> k in newM
    ensures var r := ResourceChangesFor(removed, updated, added, oldM, newM);
            && DeletesFirst(r)
            && (forall c :: c in r ==> c.error == "")
            && (forall k :: k in removed ==> ResourceChange(Delete, oldM[k], "") in r)
            && (forall k :: k in updated && oldM[k].GetKeyWithKind() != newM[k].GetKeyWithKind() ==>
                  ResourceChange(Delete, oldM[k], "") in r)
            && (forall k :: k in updated || k in added ==> ResourceChange(AddOrUpdate, newM[k], "") in r)
            && (forall c :: c in r && c.op == Delete ==> exists k :: (k in removed || k in updated) && c.resource == oldM[k])
            && (forall c :: c in r && c.op == AddOrUpdate ==> exists k :: (k in updated || k in added) && c.resource == newM[k])
  {
    var ds := DeletesOf(removed, oldM) + DisplacedOf(updated, oldM, newM);
    var us := AddOrUpdatesOf(updated, newM) + AddOrUpdatesOf(added, newM);
    AppendAssociative(ds, AddOrUpdatesOf(updated, newM), AddOrUpdatesOf(added, newM));
    assert ResourceChangesFor(removed, updated, added, oldM, newM) == ds + us;
    DeletesPartProperties(removed, updated, oldM, newM);
    AddsPartProperties(updated, added, newM);
    ConcatDeletesFirst(ds, us);
  }

  /** createResourceChangesForHosts and createResourceChangesForListeners, which differ only in their key type. */
  method CreateResourceChanges<K>(removed: seq<K>, updated: seq<K>, added: seq<K>, oldM: map<K, Resource>, newM: map<K, Resource>)
    returns (result: seq<ResourceChange>)
    requires forall k :: k in removed ==> k in oldM
    requires forall k :: k in updated ==> k in oldM && k in newM
    requires forall k :: k in added ==> k in newM
    ensures result == ResourceChangesFor(removed, updated, added, oldM, newM)
  {
    var changes: seq<ResourceChange> := [];
    var deleteChanges: seq<ResourceChange> := [];
    for i := 0 to |removed|
      invariant deleteChanges == DeletesOf(removed[..i], oldM)
    {
      DeletesOfStep(removed, oldM, i);
      deleteChanges := deleteChanges + [ResourceChange(Delete, oldM[removed[i]], "")];
    }
    assert removed[..|removed|] == removed;
    ghost var deletedFirst := deleteChanges;
    for i := 0 to |updated|
      invariant deleteChanges == deletedFirst + DisplacedOf(updated[..i], oldM, newM)
      invariant changes == AddOrUpdatesOf(updated[..i], newM)
    {
      var h := updated[i];
      DisplacedOfStep(updated, oldM, newM, i);
      AddOrUpdatesOfStep(updated, newM, i);
      if oldM[h].GetKeyWithKind() != newM[h].GetKeyWithKind() {
        AppendAssociative(deletedFirst, DisplacedOf(updated[..i], oldM, newM), [ResourceChange(Delete, oldM[h], "")]);
        deleteChanges := deleteChanges + [ResourceChange(Delete, oldM[h], "")];
      }
      changes := changes + [ResourceChange(AddOrUpdate, newM[h], "")];
    }
    assert updated[..|updated|] == updated;
    ghost var updatedFirst := changes;
    for i := 0 to |added|
      invariant changes == updatedFirst + AddOrUpdatesOf(added[..i], newM)
    {
      AddOrUpdatesOfStep(added, newM, i);
      AppendAssociative(updatedFirst, AddOrUpdatesOf(added[..i], newM), [ResourceChange(AddOrUpdate, newM[added[i]], "")]);
      changes := changes + [ResourceChange(AddOrUpdate, newM[added[i]], "")];
    }
    assert added[..|added|] == added;
    AppendAssociative(deleteChanges, updatedFirst, AddOrUpdatesOf(added, newM));
    result := deleteChanges + changes;
  }

  // ---- Squashing ----

  /** The key of each change, in order. */
  function KeysOf(changes: seq<ResourceChange>): (r: seq<string>)
    ensures |r| == |changes|
  {
    seq(|changes|, i requires 0 <= i < |changes| => ChangeKey(changes[i]))
  }

  /** The position of the last occurrence of `key`. */
  function LastIndexOf(keys: seq<string>, key: string): (i: nat)
    requires key in keys
    ensures i < |keys| && keys[i] == key
  {
    if keys[|keys| - 1] == key then |keys| - 1
    else
      assert keys == keys[..|keys| - 1] + [keys[|keys| - 1]];
      LastIndexOf(keys[..|keys| - 1], key)
  }

  lemma {:induction false} LastIndexOfIsLast(keys: seq<string>, key: string)
    requires key in keys
    ensures forall j :: LastIndexOf(keys, key) < j < |keys| ==> keys[j] != key
  {
    if keys[|keys| - 1] != key {
      assert keys == keys[..|keys| - 1] + [keys[|keys| - 1]];
      LastIndexOfIsLast(keys[..|keys| - 1], key);
    }
  }

  /** The position of the first occurrence of `key`. */
  function FirstIndexOf(keys: seq<string>, key: string): (i: nat)
    requires key in keys
    ensures i < |keys| && keys[i] == key
    ensures forall j :: 0 <= j < i ==> keys[j] != key
  {
    var p := keys[..|keys| - 1];
    if key in p then FirstIndexOf(p, key) else |keys| - 1
  }

  /** A key of a prefix occurs first where it occurs first in the prefix. */
  lemma FirstIndexOfPrefix(keys: seq<string>, n: nat, key: string)
    requires n <= |keys| && key in keys[..n]
    ensures FirstIndexOf(keys, key) == FirstIndexOf(keys[..n], key)
  {
    var a := FirstIndexOf(keys, key);
    var b := FirstIndexOf(keys[..n], key);
    assert keys[b] == key;
    assert a <= b;
    assert keys[..n][a] == key;
  }

  /** The last change about the resource with key `key`. */
  function LastChangeFor(changes: seq<ResourceChange>, key: string): (c: ResourceChange)
    requires key in KeysOf(changes)
    ensures c in changes && ChangeKey(c) == key
  {
    changes[LastIndexOf(KeysOf(changes), key)]
  }

  /** No change after the one LastChangeFor picks is about the same resource. */
  lemma LastChangeForIsLast(changes: seq<ResourceChange>, key: string)
    requires key in KeysOf(changes)
    ensures exists i :: 0 <= i < |changes| && changes[i] == LastChangeFor(changes, key)
              && forall j :: i < j < |changes| ==> ChangeKey(changes[j]) != key
  {
    var keys := KeysOf(changes);
    var i := LastIndexOf(keys, key);
    LastIndexOfIsLast(keys, key);
    forall j | i < j < |changes| ensures ChangeKey(changes[j]) != key {
      assert keys[j] == ChangeKey(changes[j]);
    }
  }

  /** The keys, each once, in the order of their first occurrence. */
  function FirstOccurrences(keys: seq<string>): (r: seq<string>)
    ensures forall k :: k in r <==> k in keys
  {
    if |keys| == 0 then []
    else
      assert keys == keys[..|keys| - 1] + [keys[|keys| - 1]];
      var r := FirstOccurrences(keys[..|keys| - 1]);
      if keys[|keys| - 1] in r then r else r + [keys[|keys| - 1]]
  }

  /** The keys listed once each come out in the order of their first occurrence. */
  lemma {:induction false} FirstOccurrencesOrdered(keys: seq<string>)
    ensures forall i, j :: 0 <= i < j < |FirstOccurrences(keys)| ==>
              FirstIndexOf(keys, FirstOccurrences(keys)[i]) < FirstIndexOf(keys, FirstOccurrences(keys)[j])
  {
    if |keys| > 0 {
      var n := |keys| - 1;
      var p := keys[..n];
      var x := keys[n];
      var q := FirstOccurrences(p);
      var r := FirstOccurrences(keys);
      FirstOccurrencesOrdered(p);
      assert r == if x in q then q else q + [x];
      forall y | y in q ensures FirstIndexOf(keys, y) == FirstIndexOf(p, y) {
        FirstIndexOfPrefix(keys, n, y);
      }
      if x !in q {
        assert x !in p;
        assert FirstIndexOf(keys, x) == n;
      }
      forall i, j | 0 <= i < j < |r| ensures FirstIndexOf(keys, r[i]) < FirstIndexOf(keys, r[j]) {
        assert r[i] == q[i] && q[i] in q && q[i] in p;
        assert FirstIndexOf(keys, r[i]) == FirstIndexOf(p, q[i]) < n;
        if j < |q| {
          assert r[j] == q[j] && q[j] in q;
          assert FirstIndexOf(p, q[i]) < FirstIndexOf(p, q[j]);
        } else {
          assert r[j] == x && x !in q;
        }
      }
    }
  }

  /** For each key of `order` in turn, its last change when that change has operation `op`. */
  function SelectOp(order: seq<string>, keys: seq<string>, changes: seq<ResourceChange>, op: Operation): seq<ResourceChange>
    requires |keys| == |changes|
    requires forall k :: k in order ==> k in keys
  {
    if |order| == 0 then []
    else
      var c := changes[LastIndexOf(keys, order[|order| - 1])];
      SelectOp(order[..|order| - 1], keys, changes, op) + (if c.op == op then [c] else [])
  }

  /**
    What squashResourceChanges returns: the last change of every resource,
    the deletes before the add-or-updates, each group in the order the
    resources first occur.
   */
  function Squash(changes: seq<ResourceChange>): seq<ResourceChange> {
    var keys := KeysOf(changes);
    var order := FirstOccurrences(keys);
    SelectOp(order, keys, changes, Delete) + SelectOp(order, keys, changes, AddOrUpdate)
  }

  lemma AppendDistinct(p: seq<string>, x: string)
    requires Distinct(p) && x !in p
    ensures Distinct(p + [x])
  {
    var r := p + [x];
    forall i, j | 0 <= i < j < |r| ensures r[i] != r[j] {
      if j == |p| {
        assert r[i] == p[i] && p[i] in p && r[j] == x;
      } else {
        assert r[i] == p[i] && r[j] == p[j];
      }
    }
  }

  lemma {:induction false} FirstOccurrencesDistinct(keys: seq<string>)
    ensures Distinct(FirstOccurrences(keys))
  {
    if |keys| > 0 {
      var p := FirstOccurrences(keys[..|keys| - 1]);
      var x := keys[|keys| - 1];
      FirstOccurrencesDistinct(keys[..|keys| - 1]);
      if x !in p {
        AppendDistinct(p, x);
      }
    }
  }

  /** No two changes are about the same resource. */
  ghost predicate DistinctKeys(r: seq<ResourceChange>) {
    forall m, n :: 0 <= m < n < |r| ==> ChangeKey(r[m]) != ChangeKey(r[n])
  }

  /** No add-or-update comes before a delete. */
  ghost predicate DeletesFirst(r: seq<ResourceChange>) {
    forall m, n :: 0 <= m < n < |r| && r[m].op == AddOrUpdate ==> r[n].op == AddOrUpdate
  }

  lemma AppendDistinctKeys(p: seq<ResourceChange>, c: ResourceChange)
    requires DistinctKeys(p)
    requires forall d :: d in p ==> ChangeKey(d) != ChangeKey(c)
    ensures DistinctKeys(p + [c])
  {
    var r := p + [c];
    forall m, n | 0 <= m < n < |r| ensures ChangeKey(r[m]) != ChangeKey(r[n]) {
      if n == |p| {
        assert r[m] == p[m] && p[m] in p && r[n] == c;
      } else {
        assert r[m] == p[m] && r[n] == p[n];
      }
    }
  }

  lemma {:induction false} SelectOpProperties(order: seq<string>, keys: seq<string>, changes: seq<ResourceChange>, op: Operation)
    requires keys == KeysOf(changes)
    requires forall k :: k in order ==> k in keys
    requires Distinct(order)
    ensures forall c :: c in SelectOp(order, keys, changes, op) ==>
              c.op == op && ChangeKey(c) in order && c == changes[LastIndexOf(keys, ChangeKey(c))]
    ensures forall k :: k in order && changes[LastIndexOf(keys, k)].op == op ==>
              changes[LastIndexOf(keys, k)] in SelectOp(order, keys, changes, op)
    ensures DistinctKeys(SelectOp(order, keys, changes, op))
  {
    if |order| > 0 {
      var prefix := order[..|order| - 1];
      var k := order[|order| - 1];
      assert order == prefix + [k];
      assert Distinct(prefix);
      SelectOpProperties(prefix, keys, changes, op);
      var p := SelectOp(prefix, keys, changes, op);
      var c := changes[LastIndexOf(keys, k)];
      assert ChangeKey(c) == k;
      assert k !in prefix by {
        forall n | 0 <= n < |prefix| ensures prefix[n] != k {
          assert order[n] != order[|order| - 1];
        }
      }
      if c.op == op {
        AppendDistinctKeys(p, c);
      }
    }
  }

  /** The selected changes follow the order of their keys in `order`. */
  lemma {:induction false} SelectOpOrdered(order: seq<string>, keys: seq<string>, changes: seq<ResourceChange>, op: Operation)
    requires keys == KeysOf(changes)
    requires forall k :: k in order ==> k in keys
    requires Distinct(order)
    ensures forall c :: c in SelectOp(order, keys, changes, op) ==> ChangeKey(c) in order
    ensures forall m, n :: 0 <= m < n < |SelectOp(order, keys, changes, op)| ==>
              FirstIndexOf(order, ChangeKey(SelectOp(order, keys, changes, op)[m])) < FirstIndexOf(order, ChangeKey(SelectOp(order, keys, changes, op)[n]))
  {
    if |order| > 0 {
      var l := |order| - 1;
      var prefix := order[..l];
      var k := order[l];
      assert order == prefix + [k];
      assert Distinct(prefix);
      SelectOpOrdered(prefix, keys, changes, op);
      var p := SelectOp(prefix, keys, changes, op);
      var c := changes[LastIndexOf(keys, k)];
      assert ChangeKey(c) == k;
      var r := SelectOp(order, keys, changes, op);
      assert r == p + (if c.op == op then [c] else []);
      assert k !in prefix by {
        forall i | 0 <= i < l ensures prefix[i] != k {
          assert order[i] != order[l];
        }
      }
      forall d | d in p ensures FirstIndexOf(order, ChangeKey(d)) < l {
        FirstIndexOfPrefix(order, l, ChangeKey(d));
      }
      assert FirstIndexOf(order, k) == l;
      forall m, n | 0 <= m < n < |r| ensures FirstIndexOf(order, ChangeKey(r[m])) < FirstIndexOf(order, ChangeKey(r[n])) {
        assert r[m] == p[m] && p[m] in p;
        FirstIndexOfPrefix(order, l, ChangeKey(p[m]));
        if n < |p| {
          assert r[n] == p[n] && p[n] in p;
          FirstIndexOfPrefix(order, l, ChangeKey(p[n]));
          assert FirstIndexOf(prefix, ChangeKey(p[m])) < FirstIndexOf(prefix, ChangeKey(p[n]));
        } else {
          assert r[n] == c;
        }
      }
    }
  }

  lemma {:induction false} SelectOpOnly(order: seq<string>, keys: seq<string>, changes: seq<ResourceChange>, op: Operation)
    requires |keys| == |changes|
    requires forall k :: k in order ==> k in keys
    ensures forall c :: c in SelectOp(order, keys, changes, op) ==> c.op == op
  {
    if |order| > 0 {
      SelectOpOnly(order[..|order| - 1], keys, changes, op);
    }
  }

  /** Keys ordered in FirstOccurrences are ordered by their first occurrence. */
  lemma FirstOccurrencesRank(keys: seq<string>, a: string, b: string)
    requires a in FirstOccurrences(keys) && b in FirstOccurrences(keys)
    requires FirstIndexOf(FirstOccurrences(keys), a) < FirstIndexOf(FirstOccurrences(keys), b)
    ensures FirstIndexOf(keys, a) < FirstIndexOf(keys, b)
  {
    FirstOccurrencesOrdered(keys);
    var order := FirstOccurrences(keys);
    assert order[FirstIndexOf(order, a)] == a && order[FirstIndexOf(order, b)] == b;
  }

  /**
    Deletes followed by add-or-updates, each group ordered as its keys are in
    FirstOccurrences, keep same-operation changes in first-occurrence order.
   */
  lemma ConcatRanked(ds: seq<ResourceChange>, us: seq<ResourceChange>, keys: seq<string>)
    requires forall c :: c in ds ==> c.op == Delete && ChangeKey(c) in FirstOccurrences(keys)
    requires forall c :: c in us ==> c.op == AddOrUpdate && ChangeKey(c) in FirstOccurrences(keys)
    requires forall m, n :: 0 <= m < n < |ds| ==>
               FirstIndexOf(FirstOccurrences(keys), ChangeKey(ds[m])) < FirstIndexOf(FirstOccurrences(keys), ChangeKey(ds[n]))
    requires forall m, n :: 0 <= m < n < |us| ==>
               FirstIndexOf(FirstOccurrences(keys), ChangeKey(us[m])) < FirstIndexOf(FirstOccurrences(keys), ChangeKey(us[n]))
    ensures forall c :: c in ds + us ==> ChangeKey(c) in keys
    ensures forall m, n :: 0 <= m < n < |ds + us| && (ds + us)[m].op == (ds + us)[n].op ==>
              FirstIndexOf(keys, ChangeKey((ds + us)[m])) < FirstIndexOf(keys, ChangeKey((ds + us)[n]))
  {
    var r := ds + us;
    forall m, n | 0 <= m < n < |r| && r[m].op == r[n].op
      ensures FirstIndexOf(keys, ChangeKey(r[m])) < FirstIndexOf(keys, ChangeKey(r[n]))
    {
      if n < |ds| {
        assert r[m] == ds[m] && r[n] == ds[n] && ds[m] in ds && ds[n] in ds;
      } else {
        assert r[n] == us[n - |ds|] && us[n - |ds|] in us;
        assert r[m] == us[m - |ds|] && us[m - |ds|] in us;
      }
      FirstOccurrencesRank(keys, ChangeKey(r[m]), ChangeKey(r[n]));
    }
  }

  /** Among the squashed changes of one operation, the resources come in the order they first occur. */
  lemma SquashOrdered(changes: seq<ResourceChange>)
    ensures forall c :: c in Squash(changes) ==> ChangeKey(c) in KeysOf(changes)
    ensures forall m, n :: 0 <= m < n < |Squash(changes)| && Squash(changes)[m].op == Squash(changes)[n].op ==>
              FirstIndexOf(KeysOf(changes), ChangeKey(Squash(changes)[m])) < FirstIndexOf(KeysOf(changes), ChangeKey(Squash(changes)[n]))
  {
    var keys := KeysOf(changes);
    var order := FirstOccurrences(keys);
    FirstOccurrencesDistinct(keys);
    SelectOpOrdered(order, keys, changes, Delete);
    SelectOpOrdered(order, keys, changes, AddOrUpdate);
    SelectOpOnly(order, keys, changes, Delete);
    SelectOpOnly(order, keys, changes, AddOrUpdate);
    var ds := SelectOp(order, keys, changes, Delete);
    var us := SelectOp(order, keys, changes, AddOrUpdate);
    assert Squash(changes) == ds + us;
    ConcatRanked(ds, us, keys);
  }

  /** Every delete of the first sequence comes before every add-or-update of the second. */
  lemma ConcatDeletesFirst(ds: seq<ResourceChange>, us: seq<ResourceChange>)
    requires forall c :: c in ds ==> c.op == Delete
    requires forall c :: c in us ==> c.op == AddOrUpdate
    ensures DeletesFirst(ds + us)
  {
    var r := ds + us;
    assert forall i :: 0 <= i < |ds| ==> r[i] == ds[i] && ds[i] in ds;
    forall m, n | 0 <= m < n < |r| && r[m].op == AddOrUpdate ensures r[n].op == AddOrUpdate {
      assert r[n] == us[n - |ds|] && us[n - |ds|] in us;
    }
  }

  lemma ConcatDistinctKeys(ds: seq<ResourceChange>, us: seq<ResourceChange>)
    requires DistinctKeys(ds) && DistinctKeys(us)
    requires forall c, d :: c in ds && d in us ==> ChangeKey(c) != ChangeKey(d)
    ensures DistinctKeys(ds + us)
  {
    var r := ds + us;
    forall m, n | 0 <= m < n < |r| ensures ChangeKey(r[m]) != ChangeKey(r[n]) {
      if n < |ds| {
        assert r[m] == ds[m] && r[n] == ds[n];
      } else if m >= |ds| {
        assert r[m] == us[m - |ds|] && r[n] == us[n - |ds|];
      } else {
        assert r[m] == ds[m] && ds[m] in ds && r[n] == us[n - |ds|] && us[n - |ds|] in us;
      }
    }
  }

  /**
    The squashed changes are exactly the last change of every resource
    mentioned, one per resource, with every delete before every
    add-or-update.
   */
  lemma SquashProperties(changes: seq<ResourceChange>)
    ensures forall c :: c in Squash(changes) ==>
              ChangeKey(c) in KeysOf(changes) && c == LastChangeFor(changes, ChangeKey(c))
    ensures forall k :: k in KeysOf(changes) ==> LastChangeFor(changes, k) in Squash(changes)
    ensures DistinctKeys(Squash(changes))
    ensures DeletesFirst(Squash(changes))
    ensures forall m, n :: 0 <= m < n < |Squash(changes)| && Squash(changes)[m].op == Squash(changes)[n].op ==>
              FirstIndexOf(KeysOf(changes), ChangeKey(Squash(changes)[m])) < FirstIndexOf(KeysOf(changes), ChangeKey(Squash(changes)[n]))
  {
    var keys := KeysOf(changes);
    var order := FirstOccurrences(keys);
    FirstOccurrencesDistinct(keys);
    SelectOpProperties(order, keys, changes, Delete);
    SelectOpProperties(order, keys, changes, AddOrUpdate);
    var ds := SelectOp(order, keys, changes, Delete);
    var us := SelectOp(order, keys, changes, AddOrUpdate);
    assert Squash(changes) == ds + us;
    forall k | k in keys ensures LastChangeFor(changes, k) in ds + us {
      var l := LastChangeFor(changes, k);
      assert k in order;
      if l.op == Delete {
        assert l in ds;
      } else {
        assert l in us;
      }
    }
    ConcatDeletesFirst(ds, us);
    ConcatDistinctKeys(ds, us);
    SquashOrdered(changes);
  }

  /** Items grouped by their keys, each group in order. */
  function Group<T>(keys: seq<string>, items: seq<T>): map<string, seq<T>>
    requires |keys| == |items|
  {
    if |items| == 0 then map[]
    else
      var g := Group(keys[..|keys| - 1], items[..|items| - 1]);
      var key := keys[|keys| - 1];
      g[key := (if key in g then g[key] else []) + [items[|items| - 1]]]
  }

  lemma GroupPrefixStep<T>(keys: seq<string>, items: seq<T>, i: nat)
    requires |keys| == |items| && i < |items|
    ensures var g := Group(keys[..i], items[..i]);
      Group(keys[..i + 1], items[..i + 1]) == g[keys[i] := (if keys[i] in g then g[keys[i]] else []) + [items[i]]]
  {
    assert keys[..i + 1][..i] == keys[..i] && items[..i + 1][..i] == items[..i];
  }

  /** Every key has a group, and its group ends with the item at the key's last position. */
  ghost predicate GroupsEndWithLast<T>(g: map<string, seq<T>>, keys: seq<string>, items: seq<T>)
    requires |keys| == |items|
  {
    && (forall k :: k in g <==> k in keys)
    && forall k :: k in g ==> |g[k]| > 0 && g[k][|g[k]| - 1] == items[LastIndexOf(keys, k)]
  }

  lemma GroupStep<T>(g: map<string, seq<T>>, keys: seq<string>, items: seq<T>)
    requires |keys| == |items| > 0
    requires GroupsEndWithLast(g, keys[..|keys| - 1], items[..|items| - 1])
    ensures var key := keys[|keys| - 1];
      GroupsEndWithLast(g[key := (if key in g then g[key] else []) + [items[|items| - 1]]], keys, items)
  {
    var n := |items| - 1;
    var key := keys[n];
    assert keys == keys[..n] + [keys[n]];
    var g' := g[key := (if key in g then g[key] else []) + [items[n]]];
    forall k | k in g'
      ensures |g'[k]| > 0 && g'[k][|g'[k]| - 1] == items[LastIndexOf(keys, k)]
    {
      if k != key {
        assert LastIndexOf(keys, k) == LastIndexOf(keys[..n], k);
      }
    }
  }

  lemma {:induction false} GroupLast<T>(keys: seq<string>, items: seq<T>)
    requires |keys| == |items|
    ensures GroupsEndWithLast(Group(keys, items), keys, items)
  {
    if |items| > 0 {
      var n := |items| - 1;
      GroupLast(keys[..n], items[..n]);
      GroupStep(Group(keys[..n], items[..n]), keys, items);
    }
  }

  /** The groups not yet visited: those of the keys not in `seen`, unchanged. */
  ghost predicate Pending(m: map<string, seq<ResourceChange>>, groups: map<string, seq<ResourceChange>>, keys: seq<string>, seen: seq<string>) {
    && (forall k :: k in m <==> k in keys && k !in seen)
    && (forall k :: k in m ==> k in groups && m[k] == groups[k])
    && (forall k :: k in seen ==> k in keys)
  }

  /** The state of squashResourceChanges after visiting the first `i` changes. */
  ghost predicate SquashedUpTo(m: map<string, seq<ResourceChange>>, groups: map<string, seq<ResourceChange>>,
                               keys: seq<string>, changes: seq<ResourceChange>, i: nat,
                               deletes: seq<ResourceChange>, updates: seq<ResourceChange>)
    requires |keys| == |changes| && i <= |keys|
  {
    var seen := FirstOccurrences(keys[..i]);
    && Pending(m, groups, keys, seen)
    && deletes == SelectOp(seen, keys, changes, Delete)
    && updates == SelectOp(seen, keys, changes, AddOrUpdate)
  }

  lemma SquashedUpToStart(groups: map<string, seq<ResourceChange>>, keys: seq<string>, changes: seq<ResourceChange>)
    requires |keys| == |changes|
    requires GroupsEndWithLast(groups, keys, changes)
    ensures SquashedUpTo(groups, groups, keys, changes, 0, [], [])
  {
    assert keys[..0] == [];
  }

  lemma PendingStep(m: map<string, seq<ResourceChange>>, groups: map<string, seq<ResourceChange>>, keys: seq<string>, seen: seq<string>, key: string)
    requires Pending(m, groups, keys, seen) && key in m
    ensures Pending(m - {key}, groups, keys, seen + [key])
  {
  }

  /** A step of the second loop of squashResourceChanges, at an already visited resource. */
  lemma SquashedUpToSkip(m: map<string, seq<ResourceChange>>, groups: map<string, seq<ResourceChange>>,
                         keys: seq<string>, changes: seq<ResourceChange>, i: nat,
                         deletes: seq<ResourceChange>, updates: seq<ResourceChange>)
    requires |keys| == |changes| && i < |keys|
    requires SquashedUpTo(m, groups, keys, changes, i, deletes, updates)
    requires keys[i] !in m
    ensures SquashedUpTo(m, groups, keys, changes, i + 1, deletes, updates)
  {
    FirstOccurrencesStep(keys, i);
  }

  /** A step of the second loop of squashResourceChanges, at a resource seen for the first time. */
  lemma SquashedUpToTake(m: map<string, seq<ResourceChange>>, groups: map<string, seq<ResourceChange>>,
                         keys: seq<string>, changes: seq<ResourceChange>, i: nat,
                         deletes: seq<ResourceChange>, updates: seq<ResourceChange>)
    requires |keys| == |changes| && i < |keys|
    requires GroupsEndWithLast(groups, keys, changes)
    requires SquashedUpTo(m, groups, keys, changes, i, deletes, updates)
    requires keys[i] in m
    ensures |m[keys[i]]| > 0
    ensures var c := m[keys[i]][|m[keys[i]]| - 1];
      SquashedUpTo(m - {keys[i]}, groups, keys, changes, i + 1,
                   if c.op == Delete then deletes + [c] else deletes,
                   if c.op == Delete then updates else updates + [c])
  {
    var key := keys[i];
    var seen := FirstOccurrences(keys[..i]);
    FirstOccurrencesStep(keys, i);
    assert seen + [key] == FirstOccurrences(keys[..i + 1]);
    assert m[key] == groups[key];
    SelectOpStep(seen, key, keys, changes, Delete);
    SelectOpStep(seen, key, keys, changes, AddOrUpdate);
    PendingStep(m, groups, keys, seen, key);
  }

  lemma FirstOccurrencesStep(keys: seq<string>, i: nat)
    requires i < |keys|
    ensures var seen := FirstOccurrences(keys[..i]);
            FirstOccurrences(keys[..i + 1]) == if keys[i] in seen then seen else seen + [keys[i]]
  {
    assert keys[..i + 1][..i] == keys[..i];
  }

  lemma SelectOpStep(order: seq<string>, k: string, keys: seq<string>, changes: seq<ResourceChange>, op: Operation)
    requires |keys| == |changes|
    requires forall x :: x in order ==> x in keys
    requires k in keys
    ensures var c := changes[LastIndexOf(keys, k)];
            SelectOp(order + [k], keys, changes, op) == SelectOp(order, keys, changes, op) + (if c.op == op then [c] else [])
  {
    assert (order + [k])[..|order|] == order;
  }

  /**
    Keeps the last change of every resource; the deletes come first, and
    each group keeps the order in which the resources first occur.
   */
  method SquashResourceChanges(changes: seq<ResourceChange>) returns (result: seq<ResourceChange>)
    ensures result == Squash(changes)
  {
    var deletes: seq<ResourceChange> := [];
    var updates: seq<ResourceChange> := [];
    var changesPerResource: map<string, seq<ResourceChange>> := map[];
    ghost var keys := KeysOf(changes);

    for i := 0 to |changes|
      invariant changesPerResource == Group(keys[..i], changes[..i])
    {
      var c := changes[i];
      var key := ChangeKey(c);
      assert key == keys[i];
      GroupPrefixStep(keys, changes, i);
      changesPerResource := changesPerResource[key := (if key in changesPerResource then changesPerResource[key] else []) + [c]];
    }
    assert keys[..|changes|] == keys && changes[..|changes|] == changes;

    ghost var groups := changesPerResource;
    GroupLast(keys, changes);
    SquashedUpToStart(groups, keys, changes);
    for i := 0 to |changes|
      invariant SquashedUpTo(changesPerResource, groups, keys, changes, i, deletes, updates)
    {
      var c := changes[i];
      var key := ChangeKey(c);
      assert key == keys[i];
      if key !in changesPerResource {
        SquashedUpToSkip(changesPerResource, groups, keys, changes, i, deletes, updates);
        continue;
      }
      SquashedUpToTake(changesPerResource, groups, keys, changes, i, deletes, updates);
      var resChanges := changesPerResource[key];
      var squashedChanged := resChanges[|resChanges| - 1];
      if squashedChanged.op == Delete {
        deletes := deletes + [squashedChanged];
      } else {
        updates := updates + [squashedChanged];
      }
      changesPerResource := changesPerResource - {key};
    }
    assert keys[..|changes|] == keys;
    result := deletes + updates;
  }

  // ---- Problems ----

  /** The keys of new problems that did not exist before or differ from the old one. */
  ghost function ChangedProblemKeys(newProblems: map<string, ConfigurationProblem>, oldProblems: map<string, ConfigurationProblem>): set<string> {
    set k | k in newProblems && (k !in oldProblems || !CompareConfigurationProblems(newProblems[k], oldProblems[k]))
  }

  /** The new problems stored under `keys` that are not already reported, in the order of `keys`. */
  function ChangedProblems(keys: seq<string>, newProblems: map<string, ConfigurationProblem>, oldProblems: map<string, ConfigurationProblem>): seq<ConfigurationProblem> {
    if |keys| == 0 then []
    else
      var k := keys[|keys| - 1];
      ChangedProblems(keys[..|keys| - 1], newProblems, oldProblems)
        + (if k in newProblems && (k !in oldProblems || !CompareConfigurationProblems(newProblems[k], oldProblems[k]))
           then [newProblems[k]] else [])
  }

  /**
    The problems reported are the new problems of the keys listed whose
    problem is new or changed, and all of them.
   */
  lemma {:induction false} ChangedProblemsMembership(keys: seq<string>, newProblems: map<string, ConfigurationProblem>, oldProblems: map<string, ConfigurationProblem>)
    ensures forall k :: k in keys && k in ChangedProblemKeys(newProblems, oldProblems) ==>
              newProblems[k] in ChangedProblems(keys, newProblems, oldProblems)
    ensures forall p :: p in ChangedProblems(keys, newProblems, oldProblems) ==>
              exists k :: k in keys && k in ChangedProblemKeys(newProblems, oldProblems) && newProblems[k] == p
  {
    if |keys| > 0 {
      var prefix := keys[..|keys| - 1];
      var k := keys[|keys| - 1];
      assert keys == prefix + [k];
      ChangedProblemsMembership(prefix, newProblems, oldProblems);
      var changed := ChangedProblemKeys(newProblems, oldProblems);
      assert k in changed <==> k in newProblems && (k !in oldProblems || !CompareConfigurationProblems(newProblems[k], oldProblems[k]));
      var r := ChangedProblems(keys, newProblems, oldProblems);
      var pr := ChangedProblems(prefix, newProblems, oldProblems);
      forall p | p in r ensures exists j :: j in keys && j in changed && newProblems[j] == p {
        if p in pr {
          var j :| j in prefix && j in changed && newProblems[j] == p;
          assert j in keys;
        } else {
          assert k in keys && p == newProblems[k];
        }
      }
    }
  }

  /** The new or changed problems, in ascending order of the object they are about. */
  method DetectChangesInProblems(newProblems: map<string, ConfigurationProblem>, oldProblems: map<string, ConfigurationProblem>)
    returns (result: seq<ConfigurationProblem>)
    ensures result == ChangedProblems(SortedStrings(newProblems.Keys), newProblems, oldProblems)
  {
    var keys := SortedStringKeys(newProblems);
    result := [];
    for i := 0 to |keys|
      invariant result == ChangedProblems(keys[..i], newProblems, oldProblems)
    {
      var key := keys[i];
      assert keys[..i + 1][..i] == keys[..i];
      var newP := newProblems[key];
      if key !in oldProblems {
        result := result + [newP];
        continue;
      }
      var oldP := oldProblems[key];
      if !CompareConfigurationProblems(newP, oldP) {
        result := result + [newP];
      }
    }
    assert keys[..|keys|] == keys;
  }
}
