/** The label sets by which the operator recognises its objects (internal/manifests/manifestutils/labels.go). */
module Labels {
  type LabelSet = map<string, string>

  /** A TempoStack instance. */
  datatype Id = Id(namespace: string, name: string)

  const NAME := "app.kubernetes.io/name"
  const INSTANCE := "app.kubernetes.io/instance"
  const MANAGED_BY := "app.kubernetes.io/managed-by"
  const NAMESPACE := "app.kubernetes.io/namespace"
  const COMPONENT := "app.kubernetes.io/component"

  function CommonLabels(instanceName: string): LabelSet {
    map[NAME := "tempo", INSTANCE := instanceName, MANAGED_BY := "tempo-operator"]
  }

  function ComponentLabels(component: string, instanceName: string): LabelSet {
    CommonLabels(instanceName) + map[COMPONENT := component]
  }

  function ClusterScopedCommonLabels(id: Id): LabelSet {
    CommonLabels(id.name) + map[NAMESPACE := id.namespace]
  }

  function ClusterScopedComponentLabels(id: Id, component: string): LabelSet {
    ClusterScopedCommonLabels(id) + map[COMPONENT := component]
  }

  /** labels.SelectorFromSet: every pair of the selector is among the labels. */
  predicate Selects(selector: LabelSet, labels: LabelSet) {
    forall k :: k in selector ==> k in labels && labels[k] == selector[k]
  }

  /** The label names are five different strings. */
  lemma DistinctLabelNames()
    ensures NAME != INSTANCE && NAME != MANAGED_BY && NAME != NAMESPACE && NAME != COMPONENT
    ensures INSTANCE != MANAGED_BY && INSTANCE != NAMESPACE && INSTANCE != COMPONENT
    ensures MANAGED_BY != NAMESPACE && MANAGED_BY != COMPONENT && NAMESPACE != COMPONENT
  {
    assert NAME[18] == 'n' && INSTANCE[18] == 'i' && MANAGED_BY[18] == 'm' && NAMESPACE[18] == 'n'
        && COMPONENT[18] == 'c';
    assert |NAME| != |NAMESPACE|;
  }

  /** The cluster-scoped selector of one instance finds the objects of exactly that instance: a name that is used again
      in another namespace is not confused with it. */
  lemma SelectsOwnOnly(i: Id, j: Id, component: string)
    ensures Selects(ClusterScopedCommonLabels(i), ClusterScopedComponentLabels(j, component)) <==> i == j
  {
    DistinctLabelNames();
    var selector, labels := ClusterScopedCommonLabels(i), ClusterScopedComponentLabels(j, component);
    assert selector[INSTANCE] == i.name && labels[INSTANCE] == j.name;
    assert selector[NAMESPACE] == i.namespace && labels[NAMESPACE] == j.namespace;
  }

  /** The namespaced selector does not look at the namespace at all: used cluster-wide it would also find the objects of
      every instance of the same name. */
  lemma CommonSelectorIgnoresNamespace(i: Id, j: Id, component: string)
    ensures Selects(CommonLabels(i.name), ClusterScopedComponentLabels(j, component)) <==> i.name == j.name
  {
    DistinctLabelNames();
    assert CommonLabels(i.name)[INSTANCE] == i.name && ClusterScopedComponentLabels(j, component)[INSTANCE] == j.name;
  }

  /** The name of the gateway's ClusterRole and ClusterRoleBinding (internal/manifests/gateway/gateway.go:88-94), for
      names that are already valid DNS labels. */
  function ClusterRoleName(id: Id): string {
    "tempo-" + id.name + "-gateway-" + id.namespace
  }

  /** Two different instances may be given the same cluster-scoped name. */
  lemma ClusterRoleNamesCollide()
    ensures Id("gateway-y", "x") != Id("y", "x-gateway")
    ensures ClusterRoleName(Id("gateway-y", "x")) == ClusterRoleName(Id("y", "x-gateway"))
            == "tempo-x-gateway-gateway-y"
  {
    assert ClusterRoleName(Id("gateway-y", "x")) == "tempo-x-gateway-gateway-y";
    assert ClusterRoleName(Id("y", "x-gateway")) == "tempo-x-gateway-gateway-y";
  }
}
