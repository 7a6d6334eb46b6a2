/**
  The configuration objects the engine arbitrates: object metadata, the
  stored Kubernetes resources (only the fields the engine reads), the three
  kinds of top-level configuration (Ingress, VirtualServer, TransportServer),
  resource changes and configuration problems.
 */
module Resources {
  import opened Wrappers
  import opened Ordering

  const IngressKind := "Ingress"
  const VirtualServerKind := "VirtualServer"
  const VirtualServerRouteKind := "VirtualServerRoute"
  const TransportServerKind := "TransportServer"

  // Event reasons reported with problems (defined by the logger package).
  const EventReasonRejected := "Rejected"
  const EventReasonNoIngressMasterFound := "NoIngressMasterFound"
  const EventReasonNoVirtualServerFound := "NoVirtualServerFound"
  const EventReasonIgnored := "Ignored"

  // Listener names and protocols of the configuration API.
  const TLSPassthroughListenerName := "tls-passthrough"
  const TLSPassthroughListenerProtocol := "TLS_PASSTHROUGH"
  const HTTPProtocol := "HTTP"

  /** The part of metav1.ObjectMeta the engine reads; the creation timestamp as an instant. */
  datatype ObjectMeta = ObjectMeta(
    namespace: string,
    name: string,
    generation: int,
    creationTimestamp: int,
    uid: string,
    annotations: map<string, string>)

  /** meta1 wins over meta2: it was created earlier, or at the same instant with the larger UID. */
  predicate ChooseObjectMetaWinner(meta1: ObjectMeta, meta2: ObjectMeta) {
    if meta1.creationTimestamp == meta2.creationTimestamp then StrLess(meta2.uid, meta1.uid)
    else meta1.creationTimestamp < meta2.creationTimestamp
  }

  lemma WinnerIrreflexive(meta: ObjectMeta)
    ensures !ChooseObjectMetaWinner(meta, meta)
  {
    StrLessIrreflexive(meta.uid);
  }

  /** Of two objects with distinct UIDs exactly one wins. */
  lemma WinnerExactlyOne(meta1: ObjectMeta, meta2: ObjectMeta)
    requires meta1.uid != meta2.uid
    ensures ChooseObjectMetaWinner(meta1, meta2) != ChooseObjectMetaWinner(meta2, meta1)
  {
    StrLessTotal(meta1.uid, meta2.uid);
    if StrLess(meta1.uid, meta2.uid) {
      StrLessAsymmetric(meta1.uid, meta2.uid);
    }
  }

  lemma WinnerTransitive(meta1: ObjectMeta, meta2: ObjectMeta, meta3: ObjectMeta)
    requires ChooseObjectMetaWinner(meta1, meta2) && ChooseObjectMetaWinner(meta2, meta3)
    ensures ChooseObjectMetaWinner(meta1, meta3)
  {
    if meta1.creationTimestamp == meta2.creationTimestamp == meta3.creationTimestamp {
      StrLessTransitive(meta3.uid, meta2.uid, meta1.uid);
    }
  }

  /** Namespace, name and generation agree. */
  predicate CompareObjectMetas(meta1: ObjectMeta, meta2: ObjectMeta) {
    meta1.namespace == meta2.namespace && meta1.name == meta2.name && meta1.generation == meta2.generation
  }

  /** As CompareObjectMetas, and the annotations are the same map. */
  predicate CompareObjectMetasWithAnnotations(meta1: ObjectMeta, meta2: ObjectMeta) {
    CompareObjectMetas(meta1, meta2) && meta1.annotations == meta2.annotations
  }

  /** The parts separated by '/'. */
  function JoinWithSlash(parts: seq<string>): string {
    if |parts| == 0 then ""
    else if |parts| == 1 then parts[0]
    else JoinWithSlash(parts[..|parts| - 1]) + "/" + parts[|parts| - 1]
  }

  /** "namespace/name". */
  function ResourceKey(meta: ObjectMeta): string {
    meta.namespace + "/" + meta.name
  }

  /** "kind/namespace/name". */
  function ResourceKeyWithKind(kind: string, meta: ObjectMeta): string {
    JoinWithSlash([kind, meta.namespace, meta.name])
  }

  lemma ResourceKeyWithKindText(kind: string, meta: ObjectMeta)
    ensures ResourceKeyWithKind(kind, meta) == kind + "/" + meta.namespace + "/" + meta.name
  {
    var parts := [kind, meta.namespace, meta.name];
    assert parts[..2] == [kind, meta.namespace] && parts[..2][..1] == [kind];
    assert JoinWithSlash(parts[..2]) == JoinWithSlash([kind]) + "/" + meta.namespace;
  }

  /** The position of the first `sep` in `s`. */
  function IndexOf(s: string, sep: char): (i: nat)
    requires sep in s
    ensures i < |s| && s[i] == sep && sep !in s[..i]
  {
    if s[0] == sep then 0
    else
      assert sep in s[1..] by { var k :| 0 <= k < |s| && s[k] == sep; assert s[1..][k - 1] == sep; }
      var j := IndexOf(s[1..], sep);
      assert s[..j + 1] == [s[0]] + s[1..][..j];
      j + 1
  }

  lemma {:induction false} IndexOfJoin(a: string, b: string, sep: char)
    requires sep !in a
    ensures IndexOf(a + [sep] + b, sep) == |a|
  {
    if |a| > 0 {
      assert (a + [sep] + b)[1..] == a[1..] + [sep] + b;
      IndexOfJoin(a[1..], b, sep);
    }
  }

  /** A string split at the first occurrence of a separator determines both parts. */
  lemma SplitAtSeparator(a: string, b: string, c: string, d: string, sep: char)
    requires sep !in a && sep !in c
    requires a + [sep] + b == c + [sep] + d
    ensures a == c && b == d
  {
    var s := a + [sep] + b;
    IndexOfJoin(a, b, sep);
    IndexOfJoin(c, d, sep);
    assert a == s[..|a|] && c == s[..|c|];
    assert b == s[|a| + 1..] && d == s[|c| + 1..];
  }

  /** Kubernetes names and namespaces contain no '/'. */
  predicate WellFormedName(meta: ObjectMeta) {
    '/' !in meta.namespace && '/' !in meta.name
  }

  /** For well-formed names, the key with kind identifies kind, namespace and name. */
  lemma ResourceKeyWithKindInjective(kind1: string, meta1: ObjectMeta, kind2: string, meta2: ObjectMeta)
    requires '/' !in kind1 && '/' !in kind2 && WellFormedName(meta1) && WellFormedName(meta2)
    requires ResourceKeyWithKind(kind1, meta1) == ResourceKeyWithKind(kind2, meta2)
    ensures kind1 == kind2 && meta1.namespace == meta2.namespace && meta1.name == meta2.name
  {
    ResourceKeyWithKindText(kind1, meta1);
    ResourceKeyWithKindText(kind2, meta2);
    assert ResourceKeyWithKind(kind1, meta1) == kind1 + ['/'] + (meta1.namespace + ['/'] + meta1.name);
    assert ResourceKeyWithKind(kind2, meta2) == kind2 + ['/'] + (meta2.namespace + ['/'] + meta2.name);
    SplitAtSeparator(kind1, meta1.namespace + "/" + meta1.name, kind2, meta2.namespace + "/" + meta2.name, '/');
    SplitAtSeparator(meta1.namespace, meta1.name, meta2.namespace, meta2.name, '/');
  }

  /** A key with kind never equals a plain resource key of a well-formed object. */
  lemma KeyWithKindIsNotResourceKey(kind: string, meta1: ObjectMeta, meta2: ObjectMeta)
    requires '/' !in kind && WellFormedName(meta1) && WellFormedName(meta2)
    ensures ResourceKeyWithKind(kind, meta1) != ResourceKey(meta2)
  {
    var rest1 := meta1.namespace + "/" + meta1.name;
    var s1 := ResourceKeyWithKind(kind, meta1);
    var s2 := ResourceKey(meta2);
    ResourceKeyWithKindText(kind, meta1);
    assert s1 == kind + ['/'] + rest1;
    IndexOfJoin(kind, rest1, '/');
    assert s1[IndexOf(s1, '/') + 1..] == rest1;
    assert rest1[|meta1.namespace|] == '/';
    IndexOfJoin(meta2.namespace, meta2.name, '/');
    assert s2[IndexOf(s2, '/') + 1..] == meta2.name;
  }

  // ---- Stored Kubernetes resources ----

  /**
    Whether an Ingress takes part in mergeable Ingresses, as its
    mergeable-ingress-type annotation says.
   */
  datatype MergeableType = Regular | Master | Minion

  datatype IngressRule = IngressRule(host: string, paths: seq<string>)

  datatype Ingress = Ingress(meta: ObjectMeta, mergeableType: MergeableType, rules: seq<IngressRule>)

  predicate IsMaster(ing: Ingress) { ing.mergeableType == Master }
  predicate IsMinion(ing: Ingress) { ing.mergeableType == Minion }

  /** A route of a VirtualServer; `route` names a VirtualServerRoute or is empty. */
  datatype Route = Route(path: string, route: string)

  datatype VirtualServerListener = VirtualServerListener(http: string, https: string)

  datatype VirtualServer = VirtualServer(
    meta: ObjectMeta,
    host: string,
    routes: seq<Route>,
    listener: Option<VirtualServerListener>)

  datatype VirtualServerRoute = VirtualServerRoute(meta: ObjectMeta, host: string)

  datatype TransportServerListener = TransportServerListener(name: string, protocol: string)

  datatype TransportServer = TransportServer(meta: ObjectMeta, host: string, listener: TransportServerListener)

  datatype Listener = Listener(name: string, port: int, ipv4: string, ipv6: string, protocol: string, ssl: bool)

  datatype GlobalConfiguration = GlobalConfiguration(listeners: seq<Listener>)

  /** The key of the listener-host map. */
  datatype ListenerHostKey = ListenerHostKey(listenerName: string, host: string)

  /** "listener|host", the text the keys are sorted by. */
  function ListenerHostKeyString(key: ListenerHostKey): string {
    key.listenerName + "|" + key.host
  }

  /**
    Keys are sorted by their text. Two distinct keys can share a text when a
    name contains '|'; the source leaves their relative order open, and this
    order puts the one with the smaller listener name first.
   */
  predicate ListenerHostKeyLess(a: ListenerHostKey, b: ListenerHostKey) {
    StrLess(ListenerHostKeyString(a), ListenerHostKeyString(b))
    || (ListenerHostKeyString(a) == ListenerHostKeyString(b) && StrLess(a.listenerName, b.listenerName))
  }

  lemma ListenerHostKeyLessIsStrictTotalOrder()
    ensures StrictTotalOrder(ListenerHostKeyLess)
  {
    StrLessIsStrictTotalOrder();
    forall a: ListenerHostKey, b: ListenerHostKey | a != b
      ensures ListenerHostKeyLess(a, b) || ListenerHostKeyLess(b, a)
    {
      assert a.host == ListenerHostKeyString(a)[|a.listenerName| + 1..];
      assert b.host == ListenerHostKeyString(b)[|b.listenerName| + 1..];
    }
  }

  /** The ascending listing of a set of listener-host keys. */
  ghost function SortedListenerHostKeys(keys: set<ListenerHostKey>): seq<ListenerHostKey> {
    Enumeration(keys, ListenerHostKeyLess)
  }

  lemma SortedListenerHostKeysEnumerates(keys: set<ListenerHostKey>)
    ensures Enumerates(SortedListenerHostKeys(keys), keys, ListenerHostKeyLess)
  {
    ListenerHostKeyLessIsStrictTotalOrder();
    EnumerationEnumerates(keys, ListenerHostKeyLess);
  }

  /** Dropping the excluded keys from the ascending listing of listener-host keys. */
  lemma SortedListenerHostKeysWithout(s: seq<ListenerHostKey>, keys: set<ListenerHostKey>, excluded: set<ListenerHostKey>)
    requires s == SortedListenerHostKeys(keys)
    ensures Without(s, excluded) == SortedListenerHostKeys(keys - excluded)
  {
    SortedListenerHostKeysEnumerates(keys);
    ListenerHostKeyLessIsStrictTotalOrder();
    WithoutEnumerates(s, keys, excluded, ListenerHostKeyLess);
  }

  /** getSortedListenerHostKeys. */
  method SortedListenerHostKeyList<V>(m: map<ListenerHostKey, V>) returns (ks: seq<ListenerHostKey>)
    ensures ks == SortedListenerHostKeys(m.Keys)
    ensures forall x :: x in ks <==> x in m
  {
    ListenerHostKeyLessIsStrictTotalOrder();
    ks := SortedKeys(m, ListenerHostKeyLess);
  }

  // ---- Configurations ----

  /** A minion Ingress with the paths it holds (true) or lost (false). */
  datatype MinionConfiguration = MinionConfiguration(ingress: Ingress, validPaths: map<string, bool>)

  /**
    A top-level configuration object: a regular or master Ingress with its
    minions, a VirtualServer with its VirtualServerRoutes, or a
    TransportServer. Warnings accumulate as arbitration proceeds.
   */
  datatype Resource =
    | IngressConfiguration(
        ingress: Ingress,
        isMaster: bool,
        minions: seq<MinionConfiguration>,
        validHosts: map<string, bool>,
        warnings: seq<string>,
        childWarnings: map<string, seq<string>>)
    | VirtualServerConfiguration(
        virtualServer: VirtualServer,
        virtualServerRoutes: seq<VirtualServerRoute>,
        warnings: seq<string>,
        httpPort: int,
        httpsPort: int,
        httpIPv4: string,
        httpIPv6: string,
        httpsIPv4: string,
        httpsIPv6: string)
    | TransportServerConfiguration(
        listenerPort: int,
        ipv4: string,
        ipv6: string,
        transportServer: TransportServer,
        warnings: seq<string>)
  {
    function ObjectMeta(): ObjectMeta {
      match this
      case IngressConfiguration(ing, _, _, _, _, _) => ing.meta
      case VirtualServerConfiguration(vs, _, _, _, _, _, _, _, _) => vs.meta
      case TransportServerConfiguration(_, _, _, ts, _) => ts.meta
    }

    function Kind(): string {
      match this
      case IngressConfiguration(_, _, _, _, _, _) => IngressKind
      case VirtualServerConfiguration(_, _, _, _, _, _, _, _, _) => VirtualServerKind
      case TransportServerConfiguration(_, _, _, _, _) => TransportServerKind
    }

    /** For example "VirtualServer/my-namespace/my-name". */
    function GetKeyWithKind(): string {
      match this
      case IngressConfiguration(ing, _, _, _, _, _) => ResourceKeyWithKind(IngressKind, ing.meta)
      case VirtualServerConfiguration(vs, _, _, _, _, _, _, _, _) => ResourceKeyWithKind(VirtualServerKind, vs.meta)
      case TransportServerConfiguration(_, _, _, ts, _) => ResourceKeyWithKind(TransportServerKind, ts.meta)
    }

    /** This resource wins a host or listener over `other`; decided by metadata alone. */
    predicate Wins(other: Resource) {
      ChooseObjectMetaWinner(ObjectMeta(), other.ObjectMeta())
    }

    function AddWarning(warning: string): (r: Resource)
      ensures r.warnings == warnings + [warning]
      ensures r.(warnings := warnings) == this
    {
      this.(warnings := warnings + [warning])
    }

    /**
      The configuration is unchanged for NGINX: same kind, same metadata
      (annotations too for Ingresses), and the same hosts, minions,
      routes or listener port.
     */
    predicate IsEqual(other: Resource)
      ensures IsEqual(other) ==> GetKeyWithKind() == other.GetKeyWithKind()
      ensures IsEqual(other) ==> ObjectMeta().generation == other.ObjectMeta().generation
      ensures this == other ==> IsEqual(other)
    {
      match this
      case IngressConfiguration(ing, master, minions, validHosts, _, _) =>
        && other.IngressConfiguration?
        && CompareObjectMetasWithAnnotations(ing.meta, other.ingress.meta)
        && validHosts == other.validHosts
        && master == other.isMaster
        && |minions| == |other.minions|
        && forall i :: 0 <= i < |minions| ==>
             CompareObjectMetasWithAnnotations(minions[i].ingress.meta, other.minions[i].ingress.meta)
      case VirtualServerConfiguration(vs, vsrs, _, _, _, _, _, _, _) =>
        && other.VirtualServerConfiguration?
        && CompareObjectMetas(vs.meta, other.virtualServer.meta)
        && |vsrs| == |other.virtualServerRoutes|
        && forall i :: 0 <= i < |vsrs| ==> CompareObjectMetas(vsrs[i].meta, other.virtualServerRoutes[i].meta)
      case TransportServerConfiguration(port, _, _, ts, _) =>
        && other.TransportServerConfiguration?
        && CompareObjectMetas(ts.meta, other.transportServer.meta)
        && port == other.listenerPort
    }
  }

  function NewRegularIngressConfiguration(ing: Ingress): Resource {
    IngressConfiguration(ing, false, [], map[], [], map[])
  }

  function NewMasterIngressConfiguration(ing: Ingress, minions: seq<MinionConfiguration>, childWarnings: map<string, seq<string>>): Resource {
    IngressConfiguration(ing, true, minions, map[], [], childWarnings)
  }

  function NewVirtualServerConfiguration(vs: VirtualServer, vsrs: seq<VirtualServerRoute>, warnings: seq<string>): Resource {
    VirtualServerConfiguration(vs, vsrs, warnings, 0, 0, "", "", "", "")
  }

  function NewTransportServerConfiguration(ts: TransportServer): Resource {
    TransportServerConfiguration(0, "", "", ts, [])
  }

  lemma WinsExactlyOne(a: Resource, b: Resource)
    requires a.ObjectMeta().uid != b.ObjectMeta().uid
    ensures a.Wins(b) != b.Wins(a)
  {
    WinnerExactlyOne(a.ObjectMeta(), b.ObjectMeta());
  }

  // ---- Changes and problems ----

  datatype Operation = Delete | AddOrUpdate

  /** A change to reflect in the NGINX config; `error` is empty when there is none. */
  datatype ResourceChange = ResourceChange(op: Operation, resource: Resource, error: string)

  /** The key a change is squashed by. */
  function ChangeKey(change: ResourceChange): string {
    change.resource.GetKeyWithKind()
  }

  /**
    A problem with a configuration object; `object` is the object's key with
    kind (the `object` of the source), which is also the key problems are stored under.
   */
  datatype ConfigurationProblem = ConfigurationProblem(objectKey: string, isError: bool, reason: string, message: string)

  /** The problems agree in everything but the object they are about. */
  predicate CompareConfigurationProblems(problem1: ConfigurationProblem, problem2: ConfigurationProblem)
    ensures CompareConfigurationProblems(problem1, problem2) <==> problem1.(objectKey := problem2.objectKey) == problem2
  {
    problem1.isError == problem2.isError && problem1.reason == problem2.reason && problem1.message == problem2.message
  }
}
