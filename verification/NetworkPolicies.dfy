/** Network policies of the components, derived from one relation of who connects to whom
    (internal/manifests/networkpolicies: components.go and operands.go). */
module NetworkPolicies {
  import opened Wrappers
  import opened Strings
  import opened Labels

  datatype Name =
    | Gateway | Distributor | Ingester | QueryFrontend | Querier | Compactor | MetricsGenerator
    | S3 | Otel | Cluster | KubeApiServer | OAuthServer | Prometheus

  function Text(n: Name): string {
    match n
    case Gateway => "gateway"
    case Distributor => "distributor"
    case Ingester => "ingester"
    case QueryFrontend => "query-frontend"
    case Querier => "querier"
    case Compactor => "compactor"
    case MetricsGenerator => "metrics-generator"
    case S3 => "s3"
    case Otel => "otel"
    case Cluster => "cluster"
    case KubeApiServer => "kube-apiserver"
    case OAuthServer => "oauth-server"
    case Prometheus => "prometheus"
  }

  predicate IsComponent(n: Name) {
    n.Gateway? || n.Distributor? || n.Ingester? || n.QueryFrontend? || n.Querier? || n.Compactor? || n.MetricsGenerator?
  }

  lemma TextInjective(a: Name, b: Name)
    requires Text(a) == Text(b)
    ensures a == b
  {
    assert |Text(a)| == |Text(b)| && Text(a)[0] == Text(b)[0];
  }

  datatype Protocol = TCP | UDP

  datatype Port = Port(protocol: Protocol, number: int)

  /** The settings the policies depend on, and the labels of the namespace of the instance; ports of the object storage
      and of the API server are found elsewhere. */
  datatype Params = Params(
    instance: string,
    gateway: bool,
    metricsGenerator: bool,
    jaegerQuery: bool,
    jaegerAuthentication: bool,
    otlpHttpEndpoint: string,
    storagePorts: seq<Port>,
    kubeApiPorts: seq<Port>,
    kubeApiIPs: seq<string>,
    openshift: bool,
    namespaceLabels: LabelSet)

  function Tcp(number: int): Port { Port(TCP, number) }

  const GRPC: seq<Port> := [Tcp(9095), Tcp(3200)]
  const OTEL_EXPORT: seq<Port> := [Tcp(4318), Tcp(4317)]
  const OAUTH: seq<Port> := [Tcp(443)]
  const GATEWAY_PUBLIC: seq<Port> := [Tcp(8080), Tcp(8081), Tcp(8090)]
  const OTLP: seq<Port> := [Tcp(4317), Tcp(4318)]
  const RECEIVERS: seq<Port> :=
    [Tcp(4317), Tcp(4318), Tcp(14268), Port(UDP, 6831), Port(UDP, 6832), Tcp(14250), Tcp(9411), Tcp(3200)]
  const JAEGER_VIA_GATEWAY: seq<Port> := [Tcp(16686), Tcp(16687)]
  const JAEGER_DIRECT: seq<Port> := [Tcp(16685), Tcp(16686), Tcp(16687)]
  const OAUTH_PROXY: seq<Port> := [Tcp(8443)]
  const PROMETHEUS_SERVER: seq<Port> := [Tcp(9090)]

  type Relations = map<Name, map<Name, seq<Port>>>

  function Lookup(r: Relations, from: Name, to: Name): Option<seq<Port>> {
    if from in r && to in r[from] then Some(r[from][to]) else None
  }

  /** A missing entry reads as no ports. */
  function Ports(targets: map<Name, seq<Port>>, n: Name): seq<Port> { if n in targets then targets[n] else [] }

  // ---------- who connects to whom ----------

  function When(condition: bool, ports: seq<Port>): Option<seq<Port>> { if condition then Some(ports) else None }

  predicate HasStorage(p: Params, n: Name) {
    n.Ingester? || n.Querier? || n.QueryFrontend? || n.Compactor? || (n.MetricsGenerator? && p.metricsGenerator)
  }

  /** The metrics generator is not among them: its whole entry is replaced after its export edge was added. */
  predicate ExportsTraces(p: Params, n: Name) {
    p.otlpHttpEndpoint != ""
    && (n.Distributor? || n.Ingester? || n.Querier? || n.QueryFrontend? || n.Compactor? || (n.Gateway? && p.gateway))
  }

  function WithJaeger(p: Params, direct: seq<Port>): seq<Port> {
    if p.jaegerAuthentication then direct + JAEGER_DIRECT + OAUTH_PROXY else direct + JAEGER_DIRECT
  }

  function QueryFrontendEdge(p: Params, from: Name): Option<seq<Port>> {
    match from
    case Querier => Some(GRPC)
    case Gateway => When(p.gateway, if p.jaegerQuery then GRPC + JAEGER_VIA_GATEWAY else GRPC)
    case Cluster =>
      if !p.jaegerQuery then When(!p.gateway, GRPC)
      else
        Some(WithJaeger(p, if p.gateway then [] else GRPC))
    case _ => None
  }

  /** The ports on which one party connects to another, if it does. */
  function Edge(p: Params, from: Name, to: Name): Option<seq<Port>> {
    match to
    case S3 => When(HasStorage(p, from), p.storagePorts)
    case Otel => When(ExportsTraces(p, from), OTEL_EXPORT)
    case Ingester => When(from.Distributor? || from.Querier?, GRPC)
    case Querier => When(from.QueryFrontend?, GRPC)
    case QueryFrontend => QueryFrontendEdge(p, from)
    case Distributor =>
      if from.Gateway? then When(p.gateway, OTLP) else When(from.Cluster? && !p.gateway, RECEIVERS)
    case Gateway => When(from.Cluster? && p.gateway, GATEWAY_PUBLIC)
    case MetricsGenerator => When((from.Distributor? || from.Querier?) && p.metricsGenerator, GRPC)
    case KubeApiServer => When(from.Gateway? && p.gateway, p.kubeApiPorts)
    case OAuthServer => When(from.Gateway? && p.gateway, OAUTH)
    case Prometheus => When(from.MetricsGenerator? && p.metricsGenerator, PROMETHEUS_SERVER)
    case _ => None
  }

  // ---------- componentRelations, step by step ----------

  class RelationsBuilder {
    var fromTo: Relations

    /** All sources the code ever writes to have an entry. */
    ghost predicate Ready()
      reads this
    {
      forall n :: IsComponent(n) || n.Cluster? ==> n in fromTo
    }

    constructor ()
      ensures Ready() && forall f, t :: Lookup(fromTo, f, t) == None
    {
      fromTo := map[Gateway := map[], Distributor := map[], Ingester := map[], QueryFrontend := map[], Querier := map[],
                    Compactor := map[], MetricsGenerator := map[], Cluster := map[]];
    }

    method Set(from: Name, to: Name, ports: seq<Port>)
      requires Ready() && (IsComponent(from) || from.Cluster?)
      modifies this
      ensures Ready()
      ensures forall f, t ::
                Lookup(fromTo, f, t) == if f == from && t == to then Some(ports) else old(Lookup(fromTo, f, t))
    {
      fromTo := fromTo[from := fromTo[from][to := ports]];
    }

    method Replace(from: Name, targets: map<Name, seq<Port>>)
      requires Ready() && IsComponent(from)
      modifies this
      ensures Ready()
      ensures forall f, t :: Lookup(fromTo, f, t) ==
                if f != from then old(Lookup(fromTo, f, t)) else if t in targets then Some(targets[t]) else None
    {
      fromTo := fromTo[from := targets];
    }

    /** append to an entry that may not exist yet. */
    method Append(from: Name, to: Name, ports: seq<Port>)
      requires Ready() && (IsComponent(from) || from.Cluster?)
      modifies this
      ensures Ready()
      ensures var before := old(Lookup(fromTo, from, to));
              forall f, t :: Lookup(fromTo, f, t) ==
                if f == from && t == to then Some((if before.Some? then before.value else []) + ports)
                else old(Lookup(fromTo, f, t))
    {
      var before := Lookup(fromTo, from, to);
      Set(from, to, (if before.Some? then before.value else []) + ports);
    }

    method AddStorage(p: Params)
      requires Ready()
      modifies this
      ensures Ready()
      ensures forall f, t :: Lookup(fromTo, f, t) ==
                if t == S3 && AlwaysHasStorage(f) then Some(p.storagePorts) else old(Lookup(fromTo, f, t))
    {
      hide Lookup;
      Set(Ingester, S3, p.storagePorts);
      Set(Querier, S3, p.storagePorts);
      Set(QueryFrontend, S3, p.storagePorts);
      Set(Compactor, S3, p.storagePorts);
    }

    method AddQueries()
      requires Ready()
      modifies this
      ensures Ready()
      ensures forall f, t :: Lookup(fromTo, f, t) == if IsQueryPath(f, t) then Some(GRPC) else old(Lookup(fromTo, f, t))
    {
      hide Lookup;
      Set(Distributor, Ingester, GRPC);
      Set(Querier, Ingester, GRPC);
      Set(Querier, QueryFrontend, GRPC);
      Set(QueryFrontend, Querier, GRPC);
    }

    method AddTracing(p: Params)
      requires Ready()
      modifies this
      ensures Ready()
      ensures forall f, t :: Lookup(fromTo, f, t) ==
                if t == Otel && MayExportTraces(p, f) then Some(OTEL_EXPORT) else old(Lookup(fromTo, f, t))
    {
      hide Lookup;
      if p.otlpHttpEndpoint != "" {
        Set(Distributor, Otel, OTEL_EXPORT);
        Set(Ingester, Otel, OTEL_EXPORT);
        Set(Querier, Otel, OTEL_EXPORT);
        Set(QueryFrontend, Otel, OTEL_EXPORT);
        Set(Compactor, Otel, OTEL_EXPORT);
        if p.metricsGenerator { Set(MetricsGenerator, Otel, OTEL_EXPORT); }
        if p.gateway { Set(Gateway, Otel, OTEL_EXPORT); }
      }
    }

    method AddGateway(p: Params)
      requires Ready() && Lookup(fromTo, Gateway, QueryFrontend) == None
      modifies this
      ensures Ready()
      ensures forall f, t :: Lookup(fromTo, f, t) ==
                if GatewayEdge(p, f, t).Some? then GatewayEdge(p, f, t) else old(Lookup(fromTo, f, t))
    {
      hide Lookup;
      Set(Cluster, Gateway, GATEWAY_PUBLIC);
      Set(Gateway, Distributor, OTLP);
      Set(Gateway, QueryFrontend, GRPC);
      Set(Gateway, KubeApiServer, p.kubeApiPorts);
      Set(Gateway, OAuthServer, OAUTH);
      if p.jaegerQuery { Append(Gateway, QueryFrontend, JAEGER_VIA_GATEWAY); }
    }

    method AddExternal(p: Params)
      requires Ready() && Lookup(fromTo, Gateway, QueryFrontend) == None
      modifies this
      ensures Ready()
      ensures forall f, t :: Lookup(fromTo, f, t) ==
                if AccessEdge(p, f, t).Some? then AccessEdge(p, f, t) else old(Lookup(fromTo, f, t))
    {
      hide Lookup;
      if p.gateway {
        AddGateway(p);
      } else {
        Set(Cluster, Distributor, RECEIVERS);
        Set(Cluster, QueryFrontend, GRPC);
      }
    }

    method AddJaeger(p: Params)
      requires Ready()
      modifies this
      ensures Ready()
      ensures var direct := old(Lookup(fromTo, Cluster, QueryFrontend));
              forall f, t :: Lookup(fromTo, f, t) ==
                if p.jaegerQuery && f == Cluster && t == QueryFrontend
                then Some(WithJaeger(p, if direct.Some? then direct.value else []))
                else old(Lookup(fromTo, f, t))
    {
      hide Lookup;
      if p.jaegerQuery {
        Append(Cluster, QueryFrontend, JAEGER_DIRECT);
        if p.jaegerAuthentication { Append(Cluster, QueryFrontend, OAUTH_PROXY); }
      }
    }

    /** The entry of the metrics generator is replaced as a whole. */
    method AddMetricsGenerator(p: Params)
      requires Ready()
      modifies this
      ensures Ready()
      ensures forall f, t :: Lookup(fromTo, f, t) ==
                if !p.metricsGenerator then old(Lookup(fromTo, f, t))
                else if f.MetricsGenerator? then
                  if t == S3 then Some(p.storagePorts) else if t == Prometheus then Some(PROMETHEUS_SERVER) else None
                else if (f.Distributor? || f.Querier?) && t == MetricsGenerator then Some(GRPC)
                else old(Lookup(fromTo, f, t))
    {
      hide Lookup;
      if p.metricsGenerator {
        Set(Distributor, MetricsGenerator, GRPC);
        Set(Querier, MetricsGenerator, GRPC);
        Replace(MetricsGenerator, map[S3 := p.storagePorts, Prometheus := PROMETHEUS_SERVER]);
      }
    }
  }

  predicate AlwaysHasStorage(n: Name) { n.Ingester? || n.Querier? || n.QueryFrontend? || n.Compactor? }

  predicate IsQueryPath(from: Name, to: Name) {
    ((from.Distributor? || from.Querier?) && to.Ingester?) || (from.Querier? && to.QueryFrontend?)
    || (from.QueryFrontend? && to.Querier?)
  }

  predicate MayExportTraces(p: Params, n: Name) {
    ExportsTraces(p, n) || (n.MetricsGenerator? && p.metricsGenerator && p.otlpHttpEndpoint != "")
  }

  function GatewayEdge(p: Params, from: Name, to: Name): Option<seq<Port>> {
    if from.Cluster? then When(to.Gateway?, GATEWAY_PUBLIC)
    else if !from.Gateway? then None
    else
      match to
      case Distributor => Some(OTLP)
      case QueryFrontend => Some(if p.jaegerQuery then GRPC + JAEGER_VIA_GATEWAY else GRPC)
      case KubeApiServer => Some(p.kubeApiPorts)
      case OAuthServer => Some(OAUTH)
      case _ => None
  }

  /** Access from outside goes through the gateway if there is one. */
  function AccessEdge(p: Params, from: Name, to: Name): Option<seq<Port>> {
    if p.gateway then GatewayEdge(p, from, to)
    else if !from.Cluster? then None
    else if to.Distributor? then Some(RECEIVERS) else When(to.QueryFrontend?, GRPC)
  }

  /** The relation as the phases of the code lay it down, each over the ones before. */
  function InnerEdge(p: Params, from: Name, to: Name): Option<seq<Port>> {
    if to == Otel && MayExportTraces(p, from) then Some(OTEL_EXPORT)
    else if IsQueryPath(from, to) then Some(GRPC)
    else When(to == S3 && AlwaysHasStorage(from), p.storagePorts)
  }

  function LayeredEdge(p: Params, from: Name, to: Name): Option<seq<Port>> {
    if p.metricsGenerator && from.MetricsGenerator? then
      if to == S3 then Some(p.storagePorts) else When(to == Prometheus, PROMETHEUS_SERVER)
    else if p.metricsGenerator && (from.Distributor? || from.Querier?) && to == MetricsGenerator then Some(GRPC)
    else OuterEdge(p, from, to)
  }

  function OuterEdge(p: Params, from: Name, to: Name): Option<seq<Port>> {
    if p.jaegerQuery && from.Cluster? && to.QueryFrontend? then
      Some(WithJaeger(p, if AccessEdge(p, from, to).Some? then AccessEdge(p, from, to).value else []))
    else if AccessEdge(p, from, to).Some? then AccessEdge(p, from, to)
    else InnerEdge(p, from, to)
  }

  lemma LayersFromGateway(p: Params, to: Name)
    ensures LayeredEdge(p, Gateway, to) == Edge(p, Gateway, to)
  {
    hide WithJaeger;
    match to {
      case S3 => case Otel => case Distributor => case QueryFrontend => case KubeApiServer => case OAuthServer =>
      case _ =>
    }
  }

  lemma LayersFromOutside(p: Params, to: Name)
    ensures LayeredEdge(p, Cluster, to) == Edge(p, Cluster, to)
  {
    hide WithJaeger;
    match to { case Gateway => case Distributor => case QueryFrontend => case _ => }
  }

  lemma OuterFromInside(p: Params, from: Name, to: Name)
    requires !from.Gateway? && !from.Cluster?
    ensures OuterEdge(p, from, to) == InnerEdge(p, from, to)
  {
    hide InnerEdge;
  }

  lemma LayersToServices(p: Params, from: Name, to: Name)
    requires !from.Gateway? && !from.Cluster? && (to.S3? || to.Otel?)
    ensures LayeredEdge(p, from, to) == Edge(p, from, to)
  {
    OuterFromInside(p, from, to);
    hide OuterEdge, WithJaeger, AccessEdge;
  }

  lemma LayersToBackends(p: Params, from: Name, to: Name)
    requires !from.Gateway? && !from.Cluster? && (to.Ingester? || to.Querier? || to.QueryFrontend?)
    ensures LayeredEdge(p, from, to) == Edge(p, from, to)
  {
    OuterFromInside(p, from, to);
    hide OuterEdge, WithJaeger, AccessEdge;
  }

  lemma LayersElsewhere(p: Params, from: Name, to: Name)
    requires !from.Gateway? && !from.Cluster?
    requires !(to.S3? || to.Otel? || to.Ingester? || to.Querier? || to.QueryFrontend?)
    ensures LayeredEdge(p, from, to) == Edge(p, from, to)
  {
    OuterFromInside(p, from, to);
    hide OuterEdge, WithJaeger, AccessEdge;
  }

  lemma LayersMakeEdges(p: Params, from: Name, to: Name)
    ensures LayeredEdge(p, from, to) == Edge(p, from, to)
  {
    if from.Gateway? { LayersFromGateway(p, to); }
    else if from.Cluster? { LayersFromOutside(p, to); }
    else if to.S3? || to.Otel? { LayersToServices(p, from, to); }
    else if to.Ingester? || to.Querier? || to.QueryFrontend? { LayersToBackends(p, from, to); }
    else { LayersElsewhere(p, from, to); }
  }

  /** componentRelations: the map holds exactly the edges. */
  method ComponentRelations(p: Params) returns (r: Relations)
    ensures forall f, t :: Lookup(r, f, t) == Edge(p, f, t)
  {
    hide Lookup, AccessEdge, Edge;
    var b := new RelationsBuilder();
    b.AddStorage(p);
    b.AddQueries();
    b.AddTracing(p);
    assert forall f, t :: Lookup(b.fromTo, f, t) == InnerEdge(p, f, t);
    b.AddExternal(p);
    b.AddJaeger(p);
    assert forall f, t :: Lookup(b.fromTo, f, t) == OuterEdge(p, f, t);
    b.AddMetricsGenerator(p);
    r := b.fromTo;
    forall f, t ensures Lookup(r, f, t) == Edge(p, f, t) { LayersMakeEdges(p, f, t); }
  }

  /** reverseRelations: the sources and their targets are visited in no particular order. */
  method ReverseRelations(r: Relations) returns (reverse: Relations)
    ensures forall f, t :: Lookup(reverse, t, f) == Lookup(r, f, t)
  {
    reverse := map[];
    var sources := r.Keys;
    while sources != {}
      invariant sources <= r.Keys
      invariant forall f, t :: Lookup(reverse, t, f) == if f in sources then None else Lookup(r, f, t)
      decreases |sources|
    {
      var from :| from in sources;
      sources := sources - {from};
      var targets := r[from].Keys;
      while targets != {}
        invariant targets <= r[from].Keys
        invariant forall f, t :: Lookup(reverse, t, f) ==
                    if f in sources || (f == from && t in targets) then None else Lookup(r, f, t)
        decreases |targets|
      {
        var to :| to in targets;
        targets := targets - {to};
        ghost var before := reverse;
        assert Lookup(before, to, from) == None;
        if to !in reverse { reverse := reverse[to := map[]]; }
        var existing := Ports(reverse[to], from);
        assert existing + r[from][to] == r[from][to];
        reverse := reverse[to := reverse[to][from := existing + r[from][to]]];
        assert forall f, t ::
                 Lookup(reverse, t, f) == if f == from && t == to then Some(r[from][to]) else Lookup(before, t, f);
        hide Lookup;
      }
    }
  }

  // ---------- names in sorted order ----------

  function Texts(names: set<Name>): set<string> { set n | n in names :: Text(n) }

  ghost predicate IsText(t: string) { exists n :: Text(n) == t }

  ghost function Named(t: string): (n: Name)
    requires IsText(t)
    ensures Text(n) == t
  {
    var n :| Text(n) == t; n
  }

  /** The names in the order of their texts. */
  ghost function ByText(names: set<Name>): (r: seq<Name>)
    ensures Elements(r) == names
  {
    var texts := SortedList(Texts(names));
    TextsAreNamed(names, texts);
    var r := seq(|texts|, i requires 0 <= i < |texts| => Named(texts[i]));
    NamedElements(names, texts, r);
    r
  }

  lemma TextIsNamed(names: set<Name>, t: string)
    requires t in Texts(names)
    ensures IsText(t) && Named(t) in names
  {
    var n :| n in names && Text(n) == t;
    assert IsText(t);
    TextInjective(n, Named(t));
  }

  lemma TextsAreNamed(names: set<Name>, texts: seq<string>)
    requires Elements(texts) == Texts(names)
    ensures forall i :: 0 <= i < |texts| ==> IsText(texts[i]) && Named(texts[i]) in names
  {
    forall i | 0 <= i < |texts| ensures IsText(texts[i]) && Named(texts[i]) in names {
      assert texts[i] in Elements(texts);
      TextIsNamed(names, texts[i]);
    }
  }

  lemma NamedElements(names: set<Name>, texts: seq<string>, r: seq<Name>)
    requires Elements(texts) == Texts(names) && |r| == |texts| && forall i :: 0 <= i < |r| ==> Text(r[i]) == texts[i]
    ensures Elements(r) == names
  {
    TextsAreNamed(names, texts);
    forall n | n in Elements(r) ensures n in names {
      var i :| 0 <= i < |r| && r[i] == n;
      TextInjective(Named(texts[i]), n);
    }
    forall n | n in names ensures n in Elements(r) {
      assert Text(n) in Elements(texts);
      var i :| 0 <= i < |texts| && texts[i] == Text(n);
      TextInjective(r[i], n);
    }
  }

  /** Collecting the keys of a map in whatever order and sorting them. */
  method SortNames(names: set<Name>) returns (sorted: seq<Name>)
    ensures sorted == ByText(names)
  {
    hide Text, Sort, Less;
    var texts: seq<string> := [];
    var byText: map<string, Name> := map[];
    var remaining := names;
    while remaining != {}
      invariant remaining <= names
      invariant Distinct(texts) && Elements(texts) == Texts(names - remaining)
      invariant byText.Keys == Elements(texts) && forall t :: t in byText ==> Text(byText[t]) == t
      decreases |remaining|
    {
      var n :| n in remaining;
      OneMoreText(names, remaining, n);
      assert Elements(texts + [Text(n)]) == Elements(texts) + {Text(n)};
      assert forall i :: 0 <= i < |texts| ==> texts[i] in Elements(texts);
      remaining := remaining - {n};
      texts := texts + [Text(n)];
      byText := byText[Text(n) := n];
    }
    assert names - remaining == names;
    SortIsSortedList(texts, Texts(names));
    SortSorts(texts);
    var ordered := Sort(texts);
    sorted := NamesOf(names, ordered, byText);
  }

  method NamesOf(names: set<Name>, ordered: seq<string>, byText: map<string, Name>) returns (sorted: seq<Name>)
    requires ordered == SortedList(Texts(names))
    requires byText.Keys == Elements(ordered) && forall t :: t in byText ==> Text(byText[t]) == t
    ensures sorted == ByText(names)
  {
    hide Text, Sort, Less;
    sorted := [];
    TextsAreNamed(names, ordered);
    for i := 0 to |ordered|
      invariant |sorted| == i && forall j :: 0 <= j < i ==> sorted[j] == Named(ordered[j])
    {
      assert ordered[i] in Elements(ordered);
      TextInjective(byText[ordered[i]], Named(ordered[i]));
      sorted := sorted + [byText[ordered[i]]];
    }
  }

  lemma OneMoreText(names: set<Name>, remaining: set<Name>, n: Name)
    requires n in remaining && remaining <= names
    ensures Texts(names - (remaining - {n})) == Texts(names - remaining) + {Text(n)}
    ensures Text(n) !in Texts(names - remaining)
  {
    if Text(n) in Texts(names - remaining) {
      var m :| m in names - remaining && Text(m) == Text(n);
      TextInjective(m, n);
      assert false;
    }
    assert names - (remaining - {n}) == (names - remaining) + {n};
  }

  // ---------- policies ----------

  /** Pods without a namespace selector are those of the namespace of the instance. */
  datatype Peer =
    | IpBlock(cidr: string)
    | AnyNamespace
    | Pods(labels: LabelSet)
    | MarkedNamespaces(key: string)
    | PodsIn(namespace: LabelSet, labels: LabelSet)

  /** No ports means any port. */
  datatype Rule = Rule(ports: seq<Port>, peers: seq<Peer>)

  datatype PolicyType = EgressType | IngressType

  datatype Policy = Policy(selector: LabelSet, egress: seq<Rule>, ingress: seq<Rule>, types: seq<PolicyType>)

  function PodsOf(p: Params, n: Name): Peer { Pods(ComponentLabels(Text(n), p.instance)) }

  function BlocksOf(ips: seq<string>): seq<Peer> { seq(|ips|, i requires 0 <= i < |ips| => IpBlock(ips[i] + "/32")) }

  function PolicyPeersFor(p: Params, n: Name): seq<Peer> {
    match n
    case Otel => [IpBlock("0.0.0.0/0")]
    case S3 => [IpBlock("0.0.0.0/0"), AnyNamespace]
    case Cluster => [AnyNamespace]
    case KubeApiServer => if |p.kubeApiIPs| > 0 then BlocksOf(p.kubeApiIPs) else [IpBlock("0.0.0.0/0")]
    case OAuthServer => [IpBlock("0.0.0.0/0"), AnyNamespace]
    case Prometheus => [IpBlock("0.0.0.0/0"), AnyNamespace]
    case _ => [PodsOf(p, n)]
  }

  lemma BlocksAreBlocks(ips: seq<string>)
    ensures forall peer :: peer in BlocksOf(ips) ==> peer.IpBlock?
  {}

  lemma NoPodsOutside(p: Params, n: Name, peer: Peer)
    requires peer.Pods? && peer in PolicyPeersFor(p, n)
    ensures IsComponent(n) && peer == PodsOf(p, n)
  {
    BlocksAreBlocks(p.kubeApiIPs);
  }

  /** The pods of one component are named by its own rules only. */
  lemma PeersIdentify(p: Params, n: Name, c: Name)
    requires IsComponent(c)
    ensures PodsOf(p, c) in PolicyPeersFor(p, n) <==> n == c
  {
    if PodsOf(p, c) in PolicyPeersFor(p, n) {
      NoPodsOutside(p, n, PodsOf(p, c));
      DistinctLabelNames();
      assert ComponentLabels(Text(n), p.instance)[COMPONENT] == ComponentLabels(Text(c), p.instance)[COMPONENT];
      TextInjective(n, c);
    }
  }

  ghost function TargetsOf(p: Params, c: Name): set<Name> { set t: Name | Edge(p, c, t).Some? }

  ghost function SourcesOf(p: Params, c: Name): set<Name> { set f: Name | Edge(p, f, c).Some? }

  /** One rule for each port; towards the object storage one rule for any port. */
  function EgressRules(p: Params, to: Name, ports: seq<Port>): seq<Rule> {
    if to == S3 then [Rule([], PolicyPeersFor(p, to))]
    else seq(|ports|, i requires 0 <= i < |ports| => Rule([ports[i]], PolicyPeersFor(p, to)))
  }

  ghost function Egress(p: Params, c: Name, targets: seq<Name>): seq<Rule>
    requires forall t :: t in targets ==> Edge(p, c, t).Some?
  {
    if targets == [] then []
    else
      var last := targets[|targets| - 1];
      Egress(p, c, targets[..|targets| - 1]) + EgressRules(p, last, Edge(p, c, last).value)
  }

  ghost function Ingress(p: Params, c: Name, sources: seq<Name>): seq<Rule>
    requires forall f :: f in sources ==> Edge(p, f, c).Some?
  {
    seq(|sources|, i requires 0 <= i < |sources| =>
      (assert sources[i] in sources; Rule(Edge(p, sources[i], c).value, PolicyPeersFor(p, sources[i]))))
  }

  lemma ByTextEdges(p: Params, c: Name)
    ensures forall t :: t in ByText(TargetsOf(p, c)) <==> Edge(p, c, t).Some?
    ensures forall f :: f in ByText(SourcesOf(p, c)) <==> Edge(p, f, c).Some?
  {
    assert forall t :: t in ByText(TargetsOf(p, c)) <==> t in Elements(ByText(TargetsOf(p, c)));
    assert forall f :: f in ByText(SourcesOf(p, c)) <==> f in Elements(ByText(SourcesOf(p, c)));
  }

  ghost function PolicyOf(p: Params, c: Name): Policy {
    ByTextEdges(p, c);
    var egress, ingress := Egress(p, c, ByText(TargetsOf(p, c))), Ingress(p, c, ByText(SourcesOf(p, c)));
    Policy(ComponentLabels(Text(c), p.instance), egress, ingress,
           (if egress != [] then [EgressType] else []) + (if ingress != [] then [IngressType] else []))
  }

  function Entry(r: Relations, n: Name): map<Name, seq<Port>> { if n in r then r[n] else map[] }

  lemma EntryLooksUp(r: Relations, n: Name)
    ensures forall m :: m in Entry(r, n) <==> Lookup(r, n, m).Some?
    ensures forall m :: m in Entry(r, n) ==> Lookup(r, n, m) == Some(Entry(r, n)[m])
  {}

  method GenerateEgress(p: Params, c: Name, rels: Relations) returns (egress: seq<Rule>)
    requires forall f, t :: Lookup(rels, f, t) == Edge(p, f, t)
    ensures egress == PolicyOf(p, c).egress
  {
    ByTextEdges(p, c);
    hide Edge, Lookup, ByText, EgressRules, ComponentLabels, Text;
    var toPorts := Entry(rels, c);
    EntryLooksUp(rels, c);
    assert toPorts.Keys == TargetsOf(p, c);
    var targets := SortNames(toPorts.Keys);
    egress := [];
    for i := 0 to |targets|
      invariant egress == Egress(p, c, targets[..i])
    {
      assert targets[..i + 1][..i] == targets[..i];
      assert targets[i] in targets;
      var rules := RulesTowards(p, targets[i], toPorts[targets[i]]);
      egress := egress + rules;
    }
    assert targets[..|targets|] == targets;
  }

  method GenerateIngress(p: Params, c: Name, reverse: Relations) returns (ingress: seq<Rule>)
    requires forall f, t :: Lookup(reverse, t, f) == Edge(p, f, t)
    ensures ingress == PolicyOf(p, c).ingress
  {
    ByTextEdges(p, c);
    hide Edge, Lookup, ByText, PolicyPeersFor, ComponentLabels, Text;
    var fromPorts := Entry(reverse, c);
    EntryLooksUp(reverse, c);
    assert fromPorts.Keys == SourcesOf(p, c);
    var sources := SortNames(fromPorts.Keys);
    ingress := [];
    for i := 0 to |sources|
      invariant |ingress| == i && forall j :: 0 <= j < i ==> ingress[j] == Ingress(p, c, sources)[j]
    {
      assert sources[i] in sources;
      ingress := ingress + [Rule(fromPorts[sources[i]], PolicyPeersFor(p, sources[i]))];
    }
  }

  /** generatePolicyFor: whatever order the maps are visited in, the policy is the same. */
  method GeneratePolicyFor(p: Params, c: Name) returns (policy: Policy)
    ensures policy == PolicyOf(p, c)
  {
    hide Edge, Lookup, ByText, Egress, Ingress, ComponentLabels, Text;
    var rels := ComponentRelations(p);
    var egress := GenerateEgress(p, c, rels);
    var reverse := ReverseRelations(rels);
    var ingress := GenerateIngress(p, c, reverse);
    var types := [];
    if |egress| > 0 { types := types + [EgressType]; }
    if |ingress| > 0 { types := types + [IngressType]; }
    policy := Policy(ComponentLabels(Text(c), p.instance), egress, ingress, types);
  }

  /** The body of the egress loop. */
  method RulesTowards(p: Params, to: Name, ports: seq<Port>) returns (rules: seq<Rule>)
    ensures rules == EgressRules(p, to, ports)
  {
    var peers := PolicyPeersFor(p, to);
    if to == S3 { return [Rule([], peers)]; }
    rules := [];
    for i := 0 to |ports|
      invariant |rules| == i && forall j :: 0 <= j < i ==> rules[j] == Rule([ports[j]], peers)
    {
      rules := rules + [Rule([ports[i]], peers)];
    }
  }

  // ---------- duality ----------

  /** A rule that names the pods of the component and admits the port. */
  predicate Admits(rule: Rule, peer: Peer, port: Port) {
    peer in rule.peers && (rule.ports == [] || port in rule.ports)
  }

  predicate SomeRule(rules: seq<Rule>, peer: Peer, port: Port) {
    exists i :: 0 <= i < |rules| && Admits(rules[i], peer, port)
  }

  /** The relation says so. */
  predicate Connects(p: Params, a: Name, b: Name, port: Port) {
    Edge(p, a, b).Some? && port in Edge(p, a, b).value
  }

  lemma RulesSay(p: Params, to: Name, ports: seq<Port>, b: Name, port: Port)
    requires IsComponent(b)
    ensures SomeRule(EgressRules(p, to, ports), PodsOf(p, b), port) <==> to == b && port in ports
  {
    PeersIdentify(p, to, b);
    hide PolicyPeersFor, PodsOf;
    var rules := EgressRules(p, to, ports);
    if to == b && port in ports {
      var i :| 0 <= i < |ports| && ports[i] == port;
      assert Admits(rules[i], PodsOf(p, b), port);
    }
  }

  lemma {:induction false} EgressSays(p: Params, a: Name, b: Name, port: Port, targets: seq<Name>)
    requires IsComponent(b) && forall t :: t in targets ==> Edge(p, a, t).Some?
    ensures SomeRule(Egress(p, a, targets), PodsOf(p, b), port) <==> b in targets && Connects(p, a, b, port)
  {
    hide Edge, PodsOf, EgressRules;
    if targets != [] {
      var front, last := targets[..|targets| - 1], targets[|targets| - 1];
      assert targets == front + [last];
      EgressSays(p, a, b, port, front);
      SplitRules(Egress(p, a, front), EgressRules(p, last, Edge(p, a, last).value), PodsOf(p, b), port);
      RulesSay(p, last, Edge(p, a, last).value, b, port);
    }
  }

  lemma SplitRules(a: seq<Rule>, b: seq<Rule>, peer: Peer, port: Port)
    ensures SomeRule(a + b, peer, port) <==> SomeRule(a, peer, port) || SomeRule(b, peer, port)
  {
    forall i | 0 <= i < |a| && Admits(a[i], peer, port) ensures SomeRule(a + b, peer, port) {
      assert Admits((a + b)[i], peer, port);
    }
    forall i | 0 <= i < |b| && Admits(b[i], peer, port) ensures SomeRule(a + b, peer, port) {
      assert Admits((a + b)[|a| + i], peer, port);
    }
  }

  lemma EdgesHavePorts(p: Params, a: Name, b: Name)
    requires IsComponent(b) && Edge(p, a, b).Some?
    ensures Edge(p, a, b).value != []
  {}

  lemma IngressSays(p: Params, a: Name, b: Name, port: Port)
    requires IsComponent(a) && IsComponent(b)
    ensures SomeRule(PolicyOf(p, b).ingress, PodsOf(p, a), port) <==> Connects(p, a, b, port)
  {
    hide ByText, PolicyOf, PolicyPeersFor, ComponentLabels, Text;
    IngressOf(p, b);
    var sources := ByText(SourcesOf(p, b));
    var rules := PolicyOf(p, b).ingress;
    if SomeRule(rules, PodsOf(p, a), port) {
      var i :| 0 <= i < |rules| && Admits(rules[i], PodsOf(p, a), port);
      assert sources[i] in sources;
      PeersIdentify(p, sources[i], a);
      EdgesHavePorts(p, a, b);
    }
    if Connects(p, a, b, port) {
      var i :| 0 <= i < |sources| && sources[i] == a;
      PeersIdentify(p, a, a);
      assert Admits(rules[i], PodsOf(p, a), port);
    }
  }

  /** Which components get a policy. */
  predicate Generated(p: Params, c: Name) {
    c.Distributor? || c.Ingester? || c.Compactor? || c.Querier? || c.QueryFrontend?
    || (c.Gateway? && p.gateway) || (c.MetricsGenerator? && p.metricsGenerator)
  }

  /** Policy duality: for any settings, components A and B and port, A's policy has a rule that names B's pods and
      admits the port outwards exactly when B's policy has one that names A's pods and admits it inwards, which is
      exactly what the relation says; and then both policies are generated. */
  lemma PolicyDuality(p: Params, a: Name, b: Name, port: Port)
    requires IsComponent(a) && IsComponent(b)
    ensures SomeRule(PolicyOf(p, a).egress, PodsOf(p, b), port)
       <==> SomeRule(PolicyOf(p, b).ingress, PodsOf(p, a), port)
    ensures SomeRule(PolicyOf(p, a).egress, PodsOf(p, b), port) <==> Connects(p, a, b, port)
    ensures Connects(p, a, b, port) ==> Generated(p, a) && Generated(p, b)
  {
    hide ByText, PolicyOf, SomeRule;
    EgressOf(p, a);
    EgressSays(p, a, b, port, ByText(TargetsOf(p, a)));
    IngressSays(p, a, b, port);
  }

  lemma {:induction false} EgressHolds(p: Params, a: Name, targets: seq<Name>, to: Name, peer: Peer, port: Port)
    requires (forall t :: t in targets ==> Edge(p, a, t).Some?) && to in targets
    requires SomeRule(EgressRules(p, to, Edge(p, a, to).value), peer, port)
    ensures SomeRule(Egress(p, a, targets), peer, port)
  {
    hide Edge, EgressRules;
    var front, last := targets[..|targets| - 1], targets[|targets| - 1];
    assert targets == front + [last];
    SplitRules(Egress(p, a, front), EgressRules(p, last, Edge(p, a, last).value), peer, port);
    if to != last { EgressHolds(p, a, front, to, peer, port); }
  }

  /** The trace export edge of the metrics generator never survives, whatever is enabled; it gets out all the same when
      it is enabled, because the rule for the object storage admits any port to any address. */
  lemma MetricsGeneratorExport(p: Params, port: Port)
    ensures Edge(p, MetricsGenerator, Otel).None?
    ensures SomeRule(PolicyOf(p, MetricsGenerator).egress, IpBlock("0.0.0.0/0"), port) <==> p.metricsGenerator
  {
    hide Edge, ByText, EgressRules, PolicyOf;
    EgressOf(p, MetricsGenerator);
    var targets := ByText(TargetsOf(p, MetricsGenerator));
    MetricsGeneratorTargets(p, targets);
    if p.metricsGenerator {
      StorageRuleAdmits(p, port);
      EgressHolds(p, MetricsGenerator, targets, S3, IpBlock("0.0.0.0/0"), port);
    }
  }

  lemma MetricsGeneratorTargets(p: Params, targets: seq<Name>)
    requires forall t :: t in targets <==> Edge(p, MetricsGenerator, t).Some?
    ensures p.metricsGenerator ==> S3 in targets && Edge(p, MetricsGenerator, S3) == Some(p.storagePorts)
    ensures !p.metricsGenerator ==> targets == []
    ensures Edge(p, MetricsGenerator, Otel).None?
  {
    assert targets != [] ==> targets[0] in targets;
  }

  lemma StorageRuleAdmits(p: Params, port: Port)
    ensures SomeRule(EgressRules(p, S3, p.storagePorts), IpBlock("0.0.0.0/0"), port)
  {
    assert Admits(EgressRules(p, S3, p.storagePorts)[0], IpBlock("0.0.0.0/0"), port);
  }

  // ---------- what the policies let through ----------

  /** The peer is met by the pods of the component. A rule for all namespaces is met by every pod; an address block is
      meant for addresses outside the cluster. */
  predicate Meets(p: Params, peer: Peer, c: Name) {
    match peer
    case IpBlock(_) => false
    case AnyNamespace => true
    case Pods(labels) => Selects(labels, ComponentLabels(Text(c), p.instance))
    case MarkedNamespaces(key) => key in p.namespaceLabels
    case PodsIn(namespace, labels) =>
      Selects(namespace, p.namespaceLabels) && Selects(labels, ComponentLabels(Text(c), p.instance))
  }

  predicate SomePeer(p: Params, peers: seq<Peer>, c: Name) {
    exists i :: 0 <= i < |peers| && Meets(p, peers[i], c)
  }

  predicate RuleAllows(p: Params, rule: Rule, c: Name, port: Port) {
    SomePeer(p, rule.peers, c) && (rule.ports == [] || port in rule.ports)
  }

  predicate Allows(p: Params, rules: seq<Rule>, c: Name, port: Port) {
    exists i :: 0 <= i < |rules| && RuleAllows(p, rules[i], c, port)
  }

  /** Parties whose rules are met by every pod. */
  predicate IsOpen(n: Name) { n.S3? || n.Cluster? || n.OAuthServer? || n.Prometheus? }

  lemma OwnPodsMeet(p: Params, n: Name, c: Name)
    ensures Meets(p, PodsOf(p, n), c) <==> n == c
  {
    var labels, own := ComponentLabels(Text(n), p.instance), ComponentLabels(Text(c), p.instance);
    if Selects(labels, own) {
      assert COMPONENT in labels;
      assert Text(n) == Text(c);
      TextInjective(n, c);
    }
  }

  lemma NoBlockMeets(p: Params, peers: seq<Peer>, c: Name)
    requires forall peer :: peer in peers ==> peer.IpBlock?
    ensures !SomePeer(p, peers, c)
  {}

  lemma WhoIsMet(p: Params, n: Name, c: Name)
    requires IsComponent(c)
    ensures SomePeer(p, PolicyPeersFor(p, n), c) <==> n == c || IsOpen(n)
  {
    var peers := PolicyPeersFor(p, n);
    hide ComponentLabels, Text, Selects;
    if IsComponent(n) {
      OwnPodsMeet(p, n, c);
      assert peers == [PodsOf(p, n)];
      assert Meets(p, PodsOf(p, n), c) ==> Meets(p, peers[0], c);
    } else if IsOpen(n) {
      var last := |peers| - 1;
      assert peers[last] == AnyNamespace && Meets(p, peers[last], c);
    } else {
      BlocksAreBlocks(p.kubeApiIPs);
      NoBlockMeets(p, peers, c);
    }
  }

  lemma AllowsSplit(p: Params, a: seq<Rule>, b: seq<Rule>, c: Name, port: Port)
    ensures Allows(p, a + b, c, port) <==> Allows(p, a, c, port) || Allows(p, b, c, port)
  {
    hide RuleAllows;
    forall i | 0 <= i < |a| && RuleAllows(p, a[i], c, port) ensures Allows(p, a + b, c, port) {
      assert RuleAllows(p, (a + b)[i], c, port);
    }
    forall i | 0 <= i < |b| && RuleAllows(p, b[i], c, port) ensures Allows(p, a + b, c, port) {
      assert RuleAllows(p, (a + b)[|a| + i], c, port);
    }
  }

  lemma RulesAllow(p: Params, to: Name, ports: seq<Port>, c: Name, port: Port)
    ensures Allows(p, EgressRules(p, to, ports), c, port)
       <==> SomePeer(p, PolicyPeersFor(p, to), c) && (to == S3 || port in ports)
  {
    hide PolicyPeersFor, SomePeer;
    var rules := EgressRules(p, to, ports);
    if to == S3 {
      assert RuleAllows(p, rules[0], c, port) <==> SomePeer(p, PolicyPeersFor(p, to), c);
    } else if port in ports {
      var i :| 0 <= i < |ports| && ports[i] == port;
      assert RuleAllows(p, rules[i], c, port) <==> SomePeer(p, PolicyPeersFor(p, to), c);
    }
  }

  /** A target whose rules are met by the component on the port. */
  predicate LetsOut(p: Params, a: Name, to: Name, c: Name, port: Port) {
    Edge(p, a, to).Some? && (to == c || IsOpen(to)) && (to == S3 || port in Edge(p, a, to).value)
  }

  predicate SomeLetsOut(p: Params, a: Name, targets: seq<Name>, c: Name, port: Port) {
    exists t :: t in targets && LetsOut(p, a, t, c, port)
  }

  lemma OneMoreTarget(p: Params, a: Name, front: seq<Name>, last: Name, c: Name, port: Port)
    ensures SomeLetsOut(p, a, front + [last], c, port)
       <==> SomeLetsOut(p, a, front, c, port) || LetsOut(p, a, last, c, port)
  {
    hide LetsOut;
    hide Edge, IsOpen, IsComponent;
    forall t | t in front ensures t in front + [last] {}
    assert last in front + [last];
  }

  lemma RulesLetOut(p: Params, a: Name, to: Name, c: Name, port: Port)
    requires IsComponent(c) && Edge(p, a, to).Some?
    ensures Allows(p, EgressRules(p, to, Edge(p, a, to).value), c, port) <==> LetsOut(p, a, to, c, port)
  {
    hide EgressRules, PolicyPeersFor, Allows, SomePeer;
    RulesAllow(p, to, Edge(p, a, to).value, c, port);
    WhoIsMet(p, to, c);
    hide Edge, IsOpen;
  }

  lemma {:induction false} EgressAllows(p: Params, a: Name, c: Name, port: Port, targets: seq<Name>)
    requires IsComponent(c) && forall t :: t in targets ==> Edge(p, a, t).Some?
    ensures Allows(p, Egress(p, a, targets), c, port) <==> SomeLetsOut(p, a, targets, c, port)
  {
    hide Edge, EgressRules, RuleAllows, LetsOut;
    if targets != [] {
      var front, last := targets[..|targets| - 1], targets[|targets| - 1];
      assert targets == front + [last];
      EgressAllows(p, a, c, port, front);
      AllowsSplit(p, Egress(p, a, front), EgressRules(p, last, Edge(p, a, last).value), c, port);
      RulesLetOut(p, a, last, c, port);
      OneMoreTarget(p, a, front, last, c, port);
    }
  }

  /** The gateway may reach port 443 anywhere for the token exchange. */
  predicate ReachesOAuth(p: Params, a: Name, port: Port) { a.Gateway? && p.gateway && port == Tcp(443) }

  lemma StorageLetsOut(p: Params, a: Name, c: Name, port: Port)
    requires IsComponent(a) && IsComponent(c)
    ensures LetsOut(p, a, S3, c, port) <==> HasStorage(p, a)
    ensures LetsOut(p, a, Prometheus, c, port) ==> HasStorage(p, a)
  {}

  lemma OAuthLetsOut(p: Params, a: Name, c: Name, port: Port)
    requires IsComponent(a) && IsComponent(c)
    ensures LetsOut(p, a, OAuthServer, c, port) <==> ReachesOAuth(p, a, port)
    ensures !LetsOut(p, a, Cluster, c, port)
  {}

  lemma OwnEdgeLetsOut(p: Params, a: Name, t: Name, c: Name, port: Port)
    requires IsComponent(c)
    ensures LetsOut(p, a, c, c, port) <==> Connects(p, a, c, port)
    ensures LetsOut(p, a, t, c, port) ==> t == c || t == S3 || t == Cluster || t == OAuthServer || t == Prometheus
  {
    hide Edge;
  }

  lemma OpenTargets(p: Params, a: Name, c: Name, port: Port)
    requires IsComponent(a) && IsComponent(c)
    ensures (exists t :: LetsOut(p, a, t, c, port))
       <==> Connects(p, a, c, port) || HasStorage(p, a) || ReachesOAuth(p, a, port)
  {
    hide LetsOut, HasStorage, ReachesOAuth, Connects;
    StorageLetsOut(p, a, c, port);
    OAuthLetsOut(p, a, c, port);
    OwnEdgeLetsOut(p, a, c, c, port);
    forall t | LetsOut(p, a, t, c, port)
      ensures t == c || t == S3 || t == Cluster || t == OAuthServer || t == Prometheus
    {
      OwnEdgeLetsOut(p, a, t, c, port);
    }
  }

  lemma TargetsLetOut(p: Params, a: Name, c: Name, port: Port, targets: seq<Name>)
    requires forall t :: t in targets <==> Edge(p, a, t).Some?
    ensures SomeLetsOut(p, a, targets, c, port) <==> exists t :: LetsOut(p, a, t, c, port)
  {
    hide Edge;
  }

  lemma EgressOf(p: Params, c: Name)
    ensures forall t :: t in ByText(TargetsOf(p, c)) <==> Edge(p, c, t).Some?
    ensures PolicyOf(p, c).egress == Egress(p, c, ByText(TargetsOf(p, c)))
  {
    hide Edge, ByText;
    ByTextEdges(p, c);
  }

  lemma IngressOf(p: Params, c: Name)
    ensures forall f :: f in ByText(SourcesOf(p, c)) <==> Edge(p, f, c).Some?
    ensures PolicyOf(p, c).ingress == Ingress(p, c, ByText(SourcesOf(p, c)))
  {
    hide Edge, ByText;
    ByTextEdges(p, c);
  }

  /** What the egress rules of A's policy admit towards the pods of B: what the relation says, and anything if A uses
      the object storage, because its rule admits any port to any namespace, and the token exchange of the gateway. */
  lemma EgressMeans(p: Params, a: Name, b: Name, port: Port)
    requires IsComponent(a) && IsComponent(b)
    ensures Allows(p, PolicyOf(p, a).egress, b, port)
       <==> Connects(p, a, b, port) || HasStorage(p, a) || ReachesOAuth(p, a, port)
  {
    hide Edge, Allows, Connects, HasStorage, ReachesOAuth, ByText, PolicyOf, LetsOut, SomeLetsOut;
    EgressOf(p, a);
    EgressAllows(p, a, b, port, ByText(TargetsOf(p, a)));
    TargetsLetOut(p, a, b, port, ByText(TargetsOf(p, a)));
    OpenTargets(p, a, b, port);
  }

  lemma SourceAllows(p: Params, a: Name, b: Name, port: Port, f: Name)
    requires IsComponent(a) && IsComponent(b) && Edge(p, f, b).Some?
    ensures RuleAllows(p, Rule(Edge(p, f, b).value, PolicyPeersFor(p, f)), a, port)
       <==> (f == a || IsOpen(f)) && port in Edge(p, f, b).value
  {
    WhoIsMet(p, f, a);
    EdgesHavePorts(p, f, b);
    hide Edge, PolicyPeersFor, IsOpen, SomePeer;
  }

  lemma IngressAllows(p: Params, a: Name, b: Name, port: Port, sources: seq<Name>)
    requires IsComponent(a) && IsComponent(b) && forall f :: f in sources ==> Edge(p, f, b).Some?
    ensures Allows(p, Ingress(p, b, sources), a, port)
       <==> exists f :: f in sources && (f == a || IsOpen(f)) && port in Edge(p, f, b).value
  {
    var rules := Ingress(p, b, sources);
    forall i | 0 <= i < |sources|
      ensures RuleAllows(p, rules[i], a, port)
         <==> (sources[i] == a || IsOpen(sources[i])) && port in Edge(p, sources[i], b).value
    {
      assert sources[i] in sources;
      SourceAllows(p, a, b, port, sources[i]);
    }
    hide Edge, RuleAllows, IsOpen;
    if f :| f in sources && (f == a || IsOpen(f)) && port in Edge(p, f, b).value {
      var i :| 0 <= i < |sources| && sources[i] == f;
      assert RuleAllows(p, rules[i], a, port);
    }
    if Allows(p, rules, a, port) {
      var i :| 0 <= i < |rules| && RuleAllows(p, rules[i], a, port);
      assert sources[i] in sources;
    }
  }

  lemma OpenSources(p: Params, f: Name, b: Name)
    requires IsComponent(b) && IsOpen(f) && Edge(p, f, b).Some?
    ensures f == Cluster
  {}

  /** Whom the ingress rules of B's policy admit: A on the ports that the relation says, or that are open to the whole
      cluster. */
  lemma IngressMeans(p: Params, a: Name, b: Name, port: Port)
    requires IsComponent(a) && IsComponent(b)
    ensures Allows(p, PolicyOf(p, b).ingress, a, port) <==> Connects(p, a, b, port) || Connects(p, Cluster, b, port)
  {
    hide Edge, Allows, ByText, PolicyOf;
    IngressOf(p, b);
    var sources := ByText(SourcesOf(p, b));
    IngressAllows(p, a, b, port, sources);
    forall f | f in sources && IsOpen(f) ensures f == Cluster { OpenSources(p, f, b); }
    assert Connects(p, a, b, port) ==> a in sources;
    assert Connects(p, Cluster, b, port) ==> Cluster in sources;
  }
}
