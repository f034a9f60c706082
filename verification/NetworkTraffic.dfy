/** All policies of an instance together, and which traffic between its components they let through
    (internal/manifests/networkpolicies: operands.go and policies.go). */
module NetworkTraffic {
  import opened Wrappers
  import opened Labels
  import opened NetworkPolicies

  // ---------- the policies ----------

  /** The labels that the pods of all components have; the name of the application is left out. */
  function SharedLabels(p: Params): LabelSet { map[INSTANCE := p.instance, MANAGED_BY := "tempo-operator"] }

  const GOSSIP: seq<Port> := [Tcp(7946), Tcp(3200), Tcp(3101)]
  const METRICS: seq<Port> := [Tcp(3200)]
  const MONITORED := "openshift.io/cluster-monitoring"

  function GossipPolicy(p: Params): Policy {
    var rule := Rule(GOSSIP, [Pods(SharedLabels(p))]);
    Policy(SharedLabels(p), [rule], [rule], [IngressType, EgressType])
  }

  function MetricsPolicy(p: Params): Policy {
    Policy(SharedLabels(p), [], [Rule(METRICS, [MarkedNamespaces(MONITORED)])], [IngressType])
  }

  /** The pods of the name service and their namespace. */
  function DnsPods(p: Params): LabelSet {
    if p.openshift then map["dns.operator.openshift.io/daemonset-dns" := "default"] else map["k8s-app" := "kube-dns"]
  }

  function DnsNamespace(p: Params): LabelSet {
    map["kubernetes.io/metadata.name" := if p.openshift then "openshift-dns" else "kube-system"]
  }

  function DnsPorts(p: Params): seq<Port> {
    if p.openshift then [Tcp(5353), Port(UDP, 5353)] else [Tcp(53), Port(UDP, 53)]
  }

  function DnsPolicy(p: Params): Policy {
    Policy(SharedLabels(p), [Rule(DnsPorts(p), [PodsIn(DnsNamespace(p), DnsPods(p))])], [], [EgressType])
  }

  /** The components with a policy of their own, in the order of the code. */
  function Components(p: Params): seq<Name> {
    [Distributor, Ingester, Compactor, Querier, QueryFrontend]
    + (if p.gateway then [Gateway] else []) + (if p.metricsGenerator then [MetricsGenerator] else [])
  }

  ghost function OwnPolicies(p: Params, components: seq<Name>): seq<Policy> {
    seq(|components|, i requires 0 <= i < |components| => PolicyOf(p, components[i]))
  }

  /** The policies are on unless they are switched off. */
  ghost function AllPolicies(p: Params, enabled: Option<bool>): seq<Policy> {
    if enabled == Some(false) then []
    else [GossipPolicy(p), MetricsPolicy(p), DnsPolicy(p)] + OwnPolicies(p, Components(p))
  }

  method GenerateOperandPolicies(p: Params, enabled: Option<bool>) returns (policies: seq<Policy>)
    ensures policies == AllPolicies(p, enabled)
  {
    hide PolicyOf;
    if enabled.Some? && !enabled.value { return []; }
    policies := [GossipPolicy(p), MetricsPolicy(p), DnsPolicy(p)];
    var components := [Distributor, Ingester, Compactor, Querier, QueryFrontend];
    if p.gateway { components := components + [Gateway]; }
    if p.metricsGenerator { components := components + [MetricsGenerator]; }
    assert components == Components(p);
    for i := 0 to |components|
      invariant policies == [GossipPolicy(p), MetricsPolicy(p), DnsPolicy(p)] + OwnPolicies(p, components[..i])
    {
      var policy := GeneratePolicyFor(p, components[i]);
      policies := policies + [policy];
      assert OwnPolicies(p, components[..i + 1]) == OwnPolicies(p, components[..i]) + [policy];
    }
    assert components[..|components|] == components;
  }

  lemma ComponentsAreGenerated(p: Params, c: Name)
    ensures c in Components(p) <==> Generated(p, c)
  {}

  // ---------- what an API server makes of them ----------

  function PodLabels(p: Params, c: Name): LabelSet { ComponentLabels(Text(c), p.instance) }

  /** The policy is about traffic of this direction at the pods of the component. */
  predicate Restricts(p: Params, policy: Policy, c: Name, direction: PolicyType) {
    direction in policy.types && Selects(policy.selector, PodLabels(p, c))
  }

  function RulesOf(policy: Policy, direction: PolicyType): seq<Rule> {
    if direction.EgressType? then policy.egress else policy.ingress
  }

  /** Pods to which no policy applies are open; otherwise some rule of some policy that applies must admit the
      traffic. */
  ghost predicate Open(p: Params, policies: seq<Policy>, at: Name, peer: Name, port: Port, direction: PolicyType) {
    (forall policy :: policy in policies ==> !Restricts(p, policy, at, direction))
    || exists policy :: policy in policies && Restricts(p, policy, at, direction)
                        && Allows(p, RulesOf(policy, direction), peer, port)
  }

  /** Traffic from a to b must be let out and let in. */
  ghost predicate Passes(p: Params, policies: seq<Policy>, a: Name, b: Name, port: Port) {
    Open(p, policies, a, b, port, EgressType) && Open(p, policies, b, a, port, IngressType)
  }

  // ---------- which policies apply ----------

  lemma SharedLabelsSelect(p: Params, c: Name)
    ensures Selects(SharedLabels(p), PodLabels(p, c))
  {
    DistinctLabelNames();
  }

  lemma OwnSelector(p: Params, n: Name, c: Name)
    ensures Selects(PolicyOf(p, n).selector, PodLabels(p, c)) <==> n == c
  {
    OwnPodsMeet(p, n, c);
  }

  lemma GossipMeets(p: Params, c: Name, port: Port)
    ensures Allows(p, GossipPolicy(p).egress, c, port) <==> port in GOSSIP
    ensures Allows(p, GossipPolicy(p).ingress, c, port) <==> port in GOSSIP
  {
    SharedLabelsSelect(p, c);
    var rule := Rule(GOSSIP, [Pods(SharedLabels(p))]);
    assert Meets(p, rule.peers[0], c);
    assert RuleAllows(p, rule, c, port) <==> port in GOSSIP;
    assert GossipPolicy(p).egress[0] == GossipPolicy(p).ingress[0] == rule;
  }

  lemma MetricsWithinGossip(p: Params, c: Name, port: Port)
    ensures Allows(p, MetricsPolicy(p).ingress, c, port) ==> port in GOSSIP
  {
    assert GOSSIP[1] == Tcp(3200);
  }

  /** The pods of the name service are not those of a component. */
  lemma DnsIsElsewhere(p: Params, c: Name, port: Port)
    ensures !Allows(p, DnsPolicy(p).egress, c, port)
  {
    NotDnsPods(p, c);
    hide DnsPods, DnsNamespace, DnsPorts, ComponentLabels, Selects;
  }

  lemma NotDnsPods(p: Params, c: Name)
    ensures !Selects(DnsPods(p), PodLabels(p, c))
  {
    var keys := {NAME, INSTANCE, MANAGED_BY, COMPONENT};
    assert PodLabels(p, c).Keys == keys;
    assert NAME[0] == 'a' && INSTANCE[0] == 'a' && MANAGED_BY[0] == 'a' && COMPONENT[0] == 'a';
    assert forall key :: key in keys ==> key[0] == 'a';
    var key := if p.openshift then "dns.operator.openshift.io/daemonset-dns" else "k8s-app";
    assert key[0] != 'a' && key in DnsPods(p);
  }

  lemma SharedAllow(p: Params, policy: Policy, peer: Name, port: Port, direction: PolicyType)
    requires policy == GossipPolicy(p) || policy == MetricsPolicy(p) || policy == DnsPolicy(p)
    ensures Allows(p, RulesOf(policy, direction), peer, port) ==> port in GOSSIP
  {
    GossipMeets(p, peer, port);
    MetricsWithinGossip(p, peer, port);
    DnsIsElsewhere(p, peer, port);
    hide RuleAllows, GOSSIP;
  }

  lemma GossipApplies(p: Params, enabled: Option<bool>, at: Name, peer: Name, port: Port, direction: PolicyType)
    requires enabled != Some(false)
    ensures GossipPolicy(p) in AllPolicies(p, enabled) && Restricts(p, GossipPolicy(p), at, direction)
    ensures Allows(p, RulesOf(GossipPolicy(p), direction), peer, port) <==> port in GOSSIP
  {
    GossipMeets(p, peer, port);
    SharedLabelsSelect(p, at);
    assert AllPolicies(p, enabled)[0] == GossipPolicy(p);
    hide Allows, PodLabels, GOSSIP;
  }

  /** What is open at a component is decided by the gossip policy and its own. */
  lemma OpenMeans(p: Params, enabled: Option<bool>, at: Name, peer: Name, port: Port, direction: PolicyType)
    requires enabled != Some(false)
    ensures Open(p, AllPolicies(p, enabled), at, peer, port, direction)
       <==> port in GOSSIP || (Generated(p, at) && Allows(p, RulesOf(PolicyOf(p, at), direction), peer, port))
  {
    hide Allows, Generated, PodLabels, PolicyOf, GOSSIP, AllPolicies, GossipPolicy, MetricsPolicy, DnsPolicy, RulesOf;
    GossipApplies(p, enabled, at, peer, port, direction);
    var own := PolicyOf(p, at);
    if Generated(p, at) && Allows(p, RulesOf(own, direction), peer, port) {
      OwnIsListed(p, enabled, at);
      OwnApplies(p, at, peer, port, direction);
    }
    forall policy | policy in AllPolicies(p, enabled) && Restricts(p, policy, at, direction)
      ensures Allows(p, RulesOf(policy, direction), peer, port) ==>
                port in GOSSIP || (Generated(p, at) && policy == own)
    {
      AppliedIsKnown(p, enabled, at, peer, port, direction, policy);
    }
  }

  lemma AppliedIsKnown(p: Params, enabled: Option<bool>, at: Name, peer: Name, port: Port, direction: PolicyType,
                       policy: Policy)
    requires policy in AllPolicies(p, enabled) && Restricts(p, policy, at, direction)
    ensures Allows(p, RulesOf(policy, direction), peer, port) ==>
              port in GOSSIP || (Generated(p, at) && policy == PolicyOf(p, at))
  {
    hide Allows, Generated, PodLabels, PolicyOf, GOSSIP, AllPolicies, GossipPolicy, MetricsPolicy, DnsPolicy, RulesOf;
    ListedIsKnown(p, enabled, at, policy);
    if policy != PolicyOf(p, at) || !Generated(p, at) { SharedAllow(p, policy, peer, port, direction); }
  }

  lemma OwnIsListed(p: Params, enabled: Option<bool>, c: Name)
    requires enabled != Some(false) && Generated(p, c)
    ensures PolicyOf(p, c) in AllPolicies(p, enabled)
  {
    hide PolicyOf;
    ComponentsAreGenerated(p, c);
    var components := Components(p);
    var i :| 0 <= i < |components| && components[i] == c;
    assert OwnPolicies(p, components)[i] == PolicyOf(p, c);
  }

  lemma OwnApplies(p: Params, c: Name, peer: Name, port: Port, direction: PolicyType)
    requires Allows(p, RulesOf(PolicyOf(p, c), direction), peer, port)
    ensures Restricts(p, PolicyOf(p, c), c, direction)
  {
    OwnSelector(p, c, c);
    hide PodLabels, RuleAllows, Egress, Ingress, ByText;
  }

  lemma ListedIsKnown(p: Params, enabled: Option<bool>, c: Name, policy: Policy)
    requires policy in AllPolicies(p, enabled) && Selects(policy.selector, PodLabels(p, c))
    ensures || policy == GossipPolicy(p) || policy == MetricsPolicy(p) || policy == DnsPolicy(p)
            || (Generated(p, c) && policy == PolicyOf(p, c))
  {
    hide PolicyOf, Generated, PodLabels, GossipPolicy, MetricsPolicy, DnsPolicy;
    var components := Components(p);
    if policy in OwnPolicies(p, components) {
      var i :| 0 <= i < |components| && OwnPolicies(p, components)[i] == policy;
      OwnSelector(p, components[i], c);
      ComponentsAreGenerated(p, c);
    }
  }

  /** Whatever the rules of a component admit, it has a policy. */
  lemma AdmittedIsGenerated(p: Params, a: Name, b: Name, port: Port)
    requires IsComponent(a) && IsComponent(b)
    ensures Connects(p, a, b, port) ==> Generated(p, a) && Generated(p, b)
    ensures HasStorage(p, a) || ReachesOAuth(p, a, port) ==> Generated(p, a)
    ensures Connects(p, Cluster, b, port) ==> Generated(p, b)
  {}

  // ---------- main results ----------

  /** Traffic between two components of an instance passes its policies exactly on the gossip ports, where the relation
      says so, and from a component that may reach everything to one that is open to the whole cluster; without policies
      all traffic passes. */
  lemma TrafficMeans(p: Params, enabled: Option<bool>, a: Name, b: Name, port: Port)
    requires IsComponent(a) && IsComponent(b)
    ensures Passes(p, AllPolicies(p, enabled), a, b, port)
       <==> || enabled == Some(false) || port in GOSSIP || Connects(p, a, b, port)
            || (Connects(p, Cluster, b, port) && (HasStorage(p, a) || ReachesOAuth(p, a, port)))
  {
    hide Allows, Connects, HasStorage, ReachesOAuth, Generated, PolicyOf, GOSSIP, IsComponent, Restricts;
    if enabled != Some(false) {
      hide Open, AllPolicies;
      OpenMeans(p, enabled, a, b, port, EgressType);
      OpenMeans(p, enabled, b, a, port, IngressType);
      EgressMeans(p, a, b, port);
      IngressMeans(p, a, b, port);
      AdmittedIsGenerated(p, a, b, port);
    }
  }

  /** Somebody the component sends to. */
  function Addressee(c: Name): (Name, Port) {
    if c.Gateway? then (Distributor, Tcp(443)) else (Ingester, Tcp(9095))
  }

  /** Somebody the component hears from. */
  function Sender(c: Name): (Name, Port) {
    match c
    case Distributor => (Gateway, Tcp(4317))
    case Querier => (QueryFrontend, Tcp(9095))
    case QueryFrontend => (Querier, Tcp(9095))
    case Gateway => (Distributor, Tcp(8080))
    case _ => (Distributor, Tcp(9095))
  }

  lemma AddresseeIsAdmitted(p: Params, c: Name)
    requires Generated(p, c)
    ensures var (to, port) := Addressee(c);
            IsComponent(to) && (Connects(p, c, to, port) || HasStorage(p, c) || ReachesOAuth(p, c, port))
  {}

  lemma SenderIsAdmitted(p: Params, c: Name)
    requires Generated(p, c) && !c.Compactor?
    ensures var (from, port) := Sender(c);
            IsComponent(from) && (Connects(p, from, c, port) || Connects(p, Cluster, c, port))
  {}

  lemma NoEdgeToCompactor(p: Params, f: Name)
    ensures Edge(p, f, Compactor).None?
  {}

  lemma NobodySendsToCompactor(p: Params)
    ensures PolicyOf(p, Compactor).ingress == []
  {
    IngressOf(p, Compactor);
    hide ByText, PolicyOf, Edge;
    var sources := ByText(SourcesOf(p, Compactor));
    forall f ensures f !in sources { NoEdgeToCompactor(p, f); }
    FirstIsIn(sources);
  }

  lemma FirstIsIn(names: seq<Name>)
    ensures names == [] || names[0] in names
  {}

  lemma TypesOf(p: Params, c: Name)
    ensures EgressType in PolicyOf(p, c).types <==> PolicyOf(p, c).egress != []
    ensures IngressType in PolicyOf(p, c).types <==> PolicyOf(p, c).ingress != []
  {
    hide Egress, Ingress, ByText, Edge;
  }

  /** A component's own policy restricts what it sends, and what it receives unless it is the compactor, to which no
      edge of the relation leads: what keeps traffic from the compactor are the policies for all pods. */
  lemma OwnTypes(p: Params, c: Name)
    requires Generated(p, c)
    ensures EgressType in PolicyOf(p, c).types
    ensures IngressType in PolicyOf(p, c).types <==> !c.Compactor?
  {
    TypesOf(p, c);
    AddresseeIsAdmitted(p, c);
    hide PolicyOf, RuleAllows, Connects, HasStorage, ReachesOAuth;
    EgressMeans(p, c, Addressee(c).0, Addressee(c).1);
    if c.Compactor? {
      NobodySendsToCompactor(p);
    } else {
      SenderIsAdmitted(p, c);
      IngressMeans(p, Sender(c).0, c, Sender(c).1);
    }
  }

  // ---------- the relation in numbers ----------

  predicate OnTcp(port: Port, numbers: set<int>) { port.protocol == TCP && port.number in numbers }

  /** Which component sends to which, on which ports. */
  lemma ConnectionsInNumbers(p: Params, a: Name, b: Name, port: Port)
    requires IsComponent(a) && IsComponent(b)
    ensures Connects(p, a, b, port)
       <==> || (b == Distributor && a == Gateway && p.gateway && OnTcp(port, {4317, 4318}))
            || (b == Ingester && (a == Distributor || a == Querier) && OnTcp(port, {9095, 3200}))
            || (b == Querier && a == QueryFrontend && OnTcp(port, {9095, 3200}))
            || (b == QueryFrontend && a == Querier && OnTcp(port, {9095, 3200}))
            || (b == QueryFrontend && a == Gateway && p.gateway && OnTcp(port, {9095, 3200}))
            || (b == QueryFrontend && a == Gateway && p.gateway && p.jaegerQuery && OnTcp(port, {16686, 16687}))
            || (b == MetricsGenerator && p.metricsGenerator && (a == Distributor || a == Querier)
                && OnTcp(port, {9095, 3200}))
  {
    PortLists(port);
    hide GRPC, OTLP, JAEGER_VIA_GATEWAY, OnTcp;
  }

  lemma PortLists(port: Port)
    ensures port in GRPC <==> OnTcp(port, {9095, 3200})
    ensures port in OTLP <==> OnTcp(port, {4317, 4318})
    ensures port in JAEGER_VIA_GATEWAY <==> OnTcp(port, {16686, 16687})
    ensures port in GATEWAY_PUBLIC <==> OnTcp(port, {8080, 8081, 8090})
    ensures port in JAEGER_DIRECT <==> OnTcp(port, {16685, 16686, 16687})
    ensures port in OAUTH_PROXY <==> OnTcp(port, {8443})
    ensures port in GOSSIP <==> OnTcp(port, {7946, 3200, 3101})
  {}

  lemma ReceiverPorts(port: Port)
    ensures port in RECEIVERS
       <==> OnTcp(port, {4317, 4318, 14268, 14250, 9411, 3200}) || (port.protocol == UDP && port.number in {6831, 6832})
  {}

  /** What is open to the whole cluster. */
  lemma OpenInNumbers(p: Params, b: Name, port: Port)
    requires IsComponent(b)
    ensures Connects(p, Cluster, b, port)
       <==> || (b == Gateway && p.gateway && OnTcp(port, {8080, 8081, 8090}))
            || (b == Distributor && !p.gateway
                && (OnTcp(port, {4317, 4318, 14268, 14250, 9411, 3200})
                    || (port.protocol == UDP && port.number in {6831, 6832})))
            || (b == QueryFrontend && !p.gateway && OnTcp(port, {9095, 3200}))
            || (b == QueryFrontend && p.jaegerQuery && OnTcp(port, {16685, 16686, 16687}))
            || (b == QueryFrontend && p.jaegerQuery && p.jaegerAuthentication && OnTcp(port, {8443}))
  {
    hide IsComponent;
    PortLists(port);
    ReceiverPorts(port);
    hide GRPC, JAEGER_DIRECT, OAUTH_PROXY, GATEWAY_PUBLIC, RECEIVERS, OnTcp;
  }

  /** The ports on which traces are exported. */
  lemma ExportsInNumbers(p: Params, a: Name, port: Port)
    requires IsComponent(a)
    ensures Connects(p, a, Otel, port)
       <==> && p.otlpHttpEndpoint != "" && OnTcp(port, {4317, 4318})
            && a != MetricsGenerator && (a == Gateway ==> p.gateway)
  {}

  /** The other parties outside the instance, and the ports on which they are reached. */
  lemma ServersInNumbers(p: Params, a: Name, port: Port)
    requires IsComponent(a)
    ensures Connects(p, a, OAuthServer, port) <==> a == Gateway && p.gateway && OnTcp(port, {443})
    ensures Connects(p, a, KubeApiServer, port) <==> a == Gateway && p.gateway && port in p.kubeApiPorts
    ensures Connects(p, a, Prometheus, port) <==> a == MetricsGenerator && p.metricsGenerator && OnTcp(port, {9090})
    ensures Connects(p, a, S3, port)
       <==> && port in p.storagePorts && a != Distributor && a != Gateway
            && (a == MetricsGenerator ==> p.metricsGenerator)
  {}

  // ---------- what a component can reach outside its instance ----------

  /** A pod of another workload, by the labels of its namespace and its own; or an address outside the cluster. */
  datatype Elsewhere = Pod(namespace: LabelSet, labels: LabelSet) | Address

  /** An address block of the relation covers every address. */
  predicate Covers(peer: Peer, e: Elsewhere) {
    match peer
    case IpBlock(cidr) => e.Address? && cidr == "0.0.0.0/0"
    case AnyNamespace => e.Pod?
    case Pods(_) => false
    case MarkedNamespaces(key) => e.Pod? && key in e.namespace
    case PodsIn(namespace, labels) => e.Pod? && Selects(namespace, e.namespace) && Selects(labels, e.labels)
  }

  predicate RuleCovers(rule: Rule, e: Elsewhere, port: Port) {
    (rule.ports == [] || port in rule.ports) && exists i :: 0 <= i < |rule.peers| && Covers(rule.peers[i], e)
  }

  predicate SomeCovers(rules: seq<Rule>, e: Elsewhere, port: Port) {
    exists i :: 0 <= i < |rules| && RuleCovers(rules[i], e, port)
  }

  /** The policies of an instance let the component send there. */
  ghost predicate Reaches(p: Params, policies: seq<Policy>, a: Name, e: Elsewhere, port: Port) {
    exists policy :: policy in policies && Restricts(p, policy, a, EgressType) && SomeCovers(policy.egress, e, port)
  }

  lemma {:induction false} EgressCovers(p: Params, a: Name, targets: seq<Name>, to: Name, e: Elsewhere, port: Port)
    requires (forall t :: t in targets ==> Edge(p, a, t).Some?) && to in targets
    requires SomeCovers(EgressRules(p, to, Edge(p, a, to).value), e, port)
    ensures SomeCovers(Egress(p, a, targets), e, port)
  {
    hide Edge, EgressRules, RuleCovers;
    var front, last := targets[..|targets| - 1], targets[|targets| - 1];
    assert targets == front + [last];
    var before, rules := Egress(p, a, front), EgressRules(p, last, Edge(p, a, last).value);
    if to == last {
      var i :| 0 <= i < |rules| && RuleCovers(rules[i], e, port);
      assert RuleCovers((before + rules)[|before| + i], e, port);
    } else {
      EgressCovers(p, a, front, to, e, port);
      var i :| 0 <= i < |before| && RuleCovers(before[i], e, port);
      assert RuleCovers((before + rules)[i], e, port);
    }
  }

  /** The components that read or write traces reach the object storage wherever it is and on whatever port. */
  lemma StorageIsReached(p: Params, enabled: Option<bool>, a: Name, e: Elsewhere, port: Port)
    requires enabled != Some(false)
    requires a == Ingester || a == Querier || a == QueryFrontend || a == Compactor
             || (a == MetricsGenerator && p.metricsGenerator)
    ensures Reaches(p, AllPolicies(p, enabled), a, e, port)
  {
    EgressOf(p, a);
    var targets := NetworkPolicies.ByText(TargetsOf(p, a));
    StorageRule(p, a, e, port);
    hide Edge, NetworkPolicies.ByText, PolicyOf, EgressRules, RuleCovers;
    EgressCovers(p, a, targets, S3, e, port);
    OwnIsListed(p, enabled, a);
    OwnSelector(p, a, a);
    TypesOf(p, a);
  }

  lemma StorageRule(p: Params, a: Name, e: Elsewhere, port: Port)
    requires HasStorage(p, a)
    ensures Edge(p, a, S3).Some? && SomeCovers(EgressRules(p, S3, Edge(p, a, S3).value), e, port)
  {
    var rule := EgressRules(p, S3, p.storagePorts)[0];
    assert Covers(rule.peers[0], e) || Covers(rule.peers[1], e);
    assert RuleCovers(rule, e, port);
  }

  /** A pod of the platform's name service. */
  predicate IsNameService(p: Params, e: Elsewhere) {
    e.Pod?
    && if p.openshift
       then Selects(map["kubernetes.io/metadata.name" := "openshift-dns"], e.namespace)
            && Selects(map["dns.operator.openshift.io/daemonset-dns" := "default"], e.labels)
       else Selects(map["kubernetes.io/metadata.name" := "kube-system"], e.namespace)
            && Selects(map["k8s-app" := "kube-dns"], e.labels)
  }

  lemma DnsRuleCovers(p: Params, e: Elsewhere, protocol: Protocol)
    requires IsNameService(p, e)
    ensures RuleCovers(DnsPolicy(p).egress[0], e, Port(protocol, if p.openshift then 5353 else 53))
  {
    var rule := DnsPolicy(p).egress[0];
    assert Covers(rule.peers[0], e);
    assert rule.ports == DnsPorts(p);
    var port := Port(protocol, if p.openshift then 5353 else 53);
    assert port == DnsPorts(p)[if protocol.TCP? then 0 else 1];
  }

  /** Every component can ask the name service, over TCP and UDP. */
  lemma NamesAreResolved(p: Params, enabled: Option<bool>, a: Name, e: Elsewhere, protocol: Protocol)
    requires enabled != Some(false) && IsNameService(p, e)
    ensures Reaches(p, AllPolicies(p, enabled), a, e, Port(protocol, if p.openshift then 5353 else 53))
  {
    DnsRuleCovers(p, e, protocol);
    hide RuleCovers, IsNameService, GossipPolicy, MetricsPolicy, OwnPolicies;
    assert AllPolicies(p, enabled)[2] == DnsPolicy(p);
    SharedLabelsSelect(p, a);
  }

  /** A platform's monitoring scrapes the metrics of every component. */
  lemma MetricsAreScraped(p: Params, enabled: Option<bool>, c: Name, e: Elsewhere)
    requires enabled != Some(false) && e.Pod? && "openshift.io/cluster-monitoring" in e.namespace
    ensures exists policy :: policy in AllPolicies(p, enabled) && Restricts(p, policy, c, IngressType)
                             && SomeCovers(policy.ingress, e, Tcp(3200))
  {
    var rule := MetricsPolicy(p).ingress[0];
    assert rule.ports[0] == Tcp(3200) && Covers(rule.peers[0], e);
    assert RuleCovers(rule, e, Tcp(3200));
    hide RuleCovers, GossipPolicy, DnsPolicy, OwnPolicies;
    assert AllPolicies(p, enabled)[1] == MetricsPolicy(p);
    SharedLabelsSelect(p, c);
  }

  /** The write path and the query path are open. */
  lemma PathsAreOpen(p: Params, enabled: Option<bool>)
    ensures var all := AllPolicies(p, enabled);
            && (p.gateway ==> Passes(p, all, Gateway, Distributor, Tcp(4317)))
            && (p.gateway ==> Passes(p, all, Gateway, Distributor, Tcp(4318)))
            && Passes(p, all, Distributor, Ingester, Tcp(9095))
            && (p.gateway ==> Passes(p, all, Gateway, QueryFrontend, Tcp(3200)))
            && Passes(p, all, QueryFrontend, Querier, Tcp(9095)) && Passes(p, all, Querier, QueryFrontend, Tcp(9095))
            && Passes(p, all, Querier, Ingester, Tcp(9095))
            && (p.metricsGenerator ==> Passes(p, all, Distributor, MetricsGenerator, Tcp(9095)))
  {
    hide Passes, Connects, AllPolicies, HasStorage, ReachesOAuth, GOSSIP;
    PathIsOpen(p, enabled, Distributor, Ingester, 9095);
    PathIsOpen(p, enabled, QueryFrontend, Querier, 9095);
    PathIsOpen(p, enabled, Querier, QueryFrontend, 9095);
    PathIsOpen(p, enabled, Querier, Ingester, 9095);
    if p.gateway {
      PathIsOpen(p, enabled, Gateway, Distributor, 4317);
      PathIsOpen(p, enabled, Gateway, Distributor, 4318);
      PathIsOpen(p, enabled, Gateway, QueryFrontend, 3200);
    }
    if p.metricsGenerator { PathIsOpen(p, enabled, Distributor, MetricsGenerator, 9095); }
  }

  lemma PathIsOpen(p: Params, enabled: Option<bool>, a: Name, b: Name, number: int)
    requires IsComponent(a) && IsComponent(b)
    ensures Connects(p, a, b, Tcp(number)) ==> Passes(p, AllPolicies(p, enabled), a, b, Tcp(number))
    ensures Connects(p, a, b, Tcp(number))
       <==> || (b == Distributor && a == Gateway && p.gateway && number in {4317, 4318})
            || (b == Ingester && (a == Distributor || a == Querier) && number in {9095, 3200})
            || (b == Querier && a == QueryFrontend && number in {9095, 3200})
            || (b == QueryFrontend && a == Querier && number in {9095, 3200})
            || (b == QueryFrontend && a == Gateway && p.gateway && number in {9095, 3200})
            || (b == QueryFrontend && a == Gateway && p.gateway && p.jaegerQuery && number in {16686, 16687})
            || (b == MetricsGenerator && p.metricsGenerator && (a == Distributor || a == Querier)
                && number in {9095, 3200})
  {
    TrafficMeans(p, enabled, a, b, Tcp(number));
    ConnectionsInNumbers(p, a, b, Tcp(number));
    hide Passes, Connects, AllPolicies, IsComponent;
  }

  /** A rule of the relation that covers a place lets the component reach it. */
  lemma EdgeReaches(p: Params, enabled: Option<bool>, a: Name, to: Name, e: Elsewhere, port: Port)
    requires enabled != Some(false) && Generated(p, a) && Edge(p, a, to).Some?
    requires SomeCovers(EgressRules(p, to, Edge(p, a, to).value), e, port)
    ensures Reaches(p, AllPolicies(p, enabled), a, e, port)
  {
    EgressOf(p, a);
    hide Edge, NetworkPolicies.ByText, PolicyOf, EgressRules, RuleCovers;
    EgressCovers(p, a, NetworkPolicies.ByText(TargetsOf(p, a)), to, e, port);
    OwnIsListed(p, enabled, a);
    OwnSelector(p, a, a);
    TypesOf(p, a);
  }

  /** Traces are exported to addresses outside the cluster. */
  lemma ExportIsReached(p: Params, enabled: Option<bool>, a: Name, number: int)
    requires enabled != Some(false) && p.otlpHttpEndpoint != "" && number in {4317, 4318}
    requires Generated(p, a) && a != MetricsGenerator
    ensures Reaches(p, AllPolicies(p, enabled), a, Address, Tcp(number))
  {
    var rules := EgressRules(p, Otel, OTEL_EXPORT);
    var i := if number == 4318 then 0 else 1;
    assert |OTEL_EXPORT| == 2 && OTEL_EXPORT[i] == Tcp(number);
    var rule := Rule([Tcp(number)], [IpBlock("0.0.0.0/0")]);
    assert rules[i] == Rule([OTEL_EXPORT[i]], PolicyPeersFor(p, Otel));
    assert rules[i].ports == rule.ports && rules[i].peers == rule.peers && Covers(rule.peers[0], Address);
    assert RuleCovers(rules[i], Address, Tcp(number));
    EdgeReaches(p, enabled, a, Otel, Address, Tcp(number));
  }

  /** The gateway has a rule for each known address of the API server, or for all if none is known, on each of its
      ports. */
  lemma ApiServerIsReached(p: Params, port: Port)
    requires p.gateway && port in p.kubeApiPorts
    ensures forall ip :: ip in p.kubeApiIPs ==> SomeRule(PolicyOf(p, Gateway).egress, IpBlock(ip + "/32"), port)
    ensures p.kubeApiIPs == [] ==> SomeRule(PolicyOf(p, Gateway).egress, IpBlock("0.0.0.0/0"), port)
  {
    hide PolicyOf, SomeRule;
    forall ip | ip in p.kubeApiIPs ensures SomeRule(PolicyOf(p, Gateway).egress, IpBlock(ip + "/32"), port) {
      var j :| 0 <= j < |p.kubeApiIPs| && p.kubeApiIPs[j] == ip;
      ApiServerRule(p, port, j);
      ApiServerPeer(p, IpBlock(ip + "/32"), port);
    }
    if p.kubeApiIPs == [] {
      ApiServerRule(p, port, 0);
      ApiServerPeer(p, IpBlock("0.0.0.0/0"), port);
    }
  }

  lemma ApiServerPeer(p: Params, peer: Peer, port: Port)
    requires p.gateway && SomeRule(EgressRules(p, KubeApiServer, p.kubeApiPorts), peer, port)
    ensures SomeRule(PolicyOf(p, Gateway).egress, peer, port)
  {
    EgressOf(p, Gateway);
    var targets := NetworkPolicies.ByText(TargetsOf(p, Gateway));
    assert Edge(p, Gateway, KubeApiServer) == Some(p.kubeApiPorts);
    hide Edge, NetworkPolicies.ByText, PolicyOf, EgressRules, SomeRule;
    EgressHolds(p, Gateway, targets, KubeApiServer, peer, port);
  }

  lemma ApiServerRule(p: Params, port: Port, j: nat)
    requires port in p.kubeApiPorts && (j < |p.kubeApiIPs| || p.kubeApiIPs == [])
    ensures var cidr := if p.kubeApiIPs == [] then "0.0.0.0/0" else p.kubeApiIPs[j] + "/32";
            SomeRule(EgressRules(p, KubeApiServer, p.kubeApiPorts), IpBlock(cidr), port)
  {
    var cidr := if p.kubeApiIPs == [] then "0.0.0.0/0" else p.kubeApiIPs[j] + "/32";
    var rules := EgressRules(p, KubeApiServer, p.kubeApiPorts);
    var i :| 0 <= i < |p.kubeApiPorts| && p.kubeApiPorts[i] == port;
    var peers := PolicyPeersFor(p, KubeApiServer);
    assert peers[if p.kubeApiIPs == [] then 0 else j] == IpBlock(cidr);
    assert rules[i] == Rule([port], peers);
    assert Admits(rules[i], IpBlock(cidr), port);
  }
}
