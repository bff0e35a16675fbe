/** What each vendor adapter asks for: the desired target, the auxiliary objects, the
    ingress class hooks, the PVC selector and the instance selector. Manifest bodies are
    kept at the grain of one path per custom resource field they copy. */
module Adapters {
  import opened Kinds
  import opened Specs
  import opened Manifests

  const MANAGED_BY := "app.kubernetes.io/managed-by"
  const OWNER := "paas.cncp.nl/owner"
  const SCOPE := "dashboards.paas.cncp.nl/scope"
  const PSMDB_FINALIZER := "percona.com/delete-psmdb-pvc"

  function FieldManager(kind: Kind): string {
    match kind
    case Postgres => "postgrescluster-operator"
    case MariaDB => "mariadbcluster-operator"
    case Valkey => "valkeycluster-operator"
    case RabbitMQ => "rabbitmqcluster-operator"
    case Kafka => "kafkacluster-operator"
    case MongoDB => "mongodbcluster-operator"
    case Grafana => "grafanainstance-operator"
    case Prometheus => "prometheusinstance-operator"
    case Loki => "lokiinstance-operator"
    case Alloy => "alloyinstance-operator"
  }

  /** Two letters that tell the field managers apart. */
  function Initials(kind: Kind): (char, char) {
    match kind
    case Postgres => ('p', 'o')
    case MariaDB => ('m', 'a')
    case Valkey => ('v', 'a')
    case RabbitMQ => ('r', 'a')
    case Kafka => ('k', 'a')
    case MongoDB => ('m', 'o')
    case Grafana => ('g', 'r')
    case Prometheus => ('p', 'r')
    case Loki => ('l', 'o')
    case Alloy => ('a', 'l')
  }

  predicate StartsWith(s: string, initials: (char, char)) {
    |s| > 1 && s[0] == initials.0 && s[1] == initials.1
  }

  lemma ClusterInitials(kind: Kind)
    requires kind in {Postgres, MariaDB, Valkey, RabbitMQ, Kafka, MongoDB}
    ensures StartsWith(FieldManager(kind), Initials(kind))
  {
  }

  lemma InstanceInitials(kind: Kind)
    requires kind in {Grafana, Prometheus, Loki, Alloy}
    ensures StartsWith(FieldManager(kind), Initials(kind))
  {
  }

  /** No two kinds apply under one field manager, so a kind stands for its manager. */
  lemma FieldManagersDistinct(a: Kind, b: Kind)
    requires FieldManager(a) == FieldManager(b)
    ensures a == b
  {
    forall kind ensures StartsWith(FieldManager(kind), Initials(kind)) {
      match kind
      case Grafana | Prometheus | Loki | Alloy => InstanceInitials(kind);
      case Postgres | MariaDB | Valkey | RabbitMQ | Kafka | MongoDB => ClusterInitials(kind);
    }
    assert Initials(a) == Initials(b);
  }

  function CommonLabels(kind: Kind, owner: string): map<Path, Value> {
    map[Label(MANAGED_BY) := Str(FieldManager(kind)), Label(OWNER) := Str(owner)]
  }

  // ---------------------------------------------------------------- the primary target

  /** The fields BuildManifest copies whatever their value. */
  function AlwaysCopied(kind: Kind): set<Field> {
    match kind
    case Postgres => {Instances, Storage, Database}
    case MariaDB => {Replicas, Storage, Database}
    case Valkey => {Shards, Replicas, Persistence, EnablePodMonitor}
    case RabbitMQ => {Replicas, Storage}
    case Kafka => {}
    case MongoDB => {Replicas, Image, Storage}
    case Grafana => {Replicas}
    case Prometheus => {Replicas}
    case Loki => {Size, StorageClassName, ObjectStorage}
    case Alloy => {LokiInstanceRef, Replicas}
  }

  /** The fields BuildManifest copies only when they are set. */
  function CopiedWhenSet(kind: Kind): set<Field> {
    match kind
    case Postgres | MariaDB => {Image, Resources, Expose, EnablePodMonitor}
    case Valkey => {Image, Resources}
    case RabbitMQ => {Image, Resources, Expose}
    case Kafka => {Version, Expose, EnablePodMonitor}
    case MongoDB => {Resources, Expose, EnablePodMonitor}
    case Grafana => {Version, IngressField, Expose, Persistence}
    case Prometheus => {Version, Retention, Storage, Resources}
    case Loki | Alloy => {}
  }

  predicate IsSet(kind: Kind, spec: Spec, f: Field) {
    f in Schema(kind) && Read(kind, spec, f) != Schema(kind)[f].zero
  }

  function BuildManifest(kind: Kind, spec: Spec, ns: string, owner: string): Manifest {
    var copied := map f | f in AlwaysCopied(kind) + CopiedWhenSet(kind) &&
                          (f in AlwaysCopied(kind) || IsSet(kind, spec, f))
                  :: Copied(f) := Read(kind, spec, f);
    var scope := if kind == Grafana then map[Label(SCOPE) := Str(ns)] else map[];
    Manifest(CommonLabels(kind, owner) + scope + copied,
             TargetPins(kind))
  }

  // ---------------------------------------------------------------- the ingress class

  predicate DefaultsIngressClass(kind: Kind) {
    kind in {RabbitMQ, Grafana, Prometheus}
  }

  /** None when no Ingress is requested. */
  function RequestedIngressClassName(kind: Kind, spec: Spec): Option<string> {
    match Read(kind, spec, IngressField)
    case IngressValue(ing) => Some(ing.className)
    case _ => None
  }

  function SetIngressClassName(spec: Spec, className: string): Spec {
    if IngressField in spec && spec[IngressField].IngressValue?
    then spec[IngressField := IngressValue(spec[IngressField].ingress.(className := className))]
    else spec
  }

  // ---------------------------------------------------------------- auxiliary objects

  function Selecting(ns: string): Value {
    Labels(map[SCOPE := ns])
  }

  function Toggled(on: bool, m: Manifest): Option<Manifest> {
    if on then Some(m) else None
  }

  function Monitored(kind: Kind, spec: Spec): bool {
    Read(kind, spec, EnablePodMonitor) == Bool(true)
  }

  function Dashboard(kind: Kind, folder: string, ns: string, owner: string): Manifest {
    Manifest(CommonLabels(kind, owner)[InstanceSelector := Selecting(ns)][Body := Str(folder)], {})
  }

  /** A PodMonitor, ServiceMonitor or Service: labels plus the pods it selects. */
  function PodObject(kind: Kind, podLabel: string, target: string, owner: string): Manifest {
    Manifest(CommonLabels(kind, owner)[PodSelector := Labels(PodLabels(kind, podLabel, target))], {})
  }

  /** The labels of the pods meant; those of a MongoDB target are told from its other pods. */
  function PodLabels(kind: Kind, podLabel: string, target: string): map<string, string> {
    if kind == MongoDB then map[podLabel := target, "app.kubernetes.io/component" := "mongod"]
    else map[podLabel := target]
  }

  function IngressManifest(kind: Kind, spec: Spec, owner: string): Manifest {
    Manifest(CommonLabels(kind, owner)[Copied(IngressField) := Read(kind, spec, IngressField)], {})
  }

  function Datasource(kind: Kind, ref: Value, ns: string, owner: string): Manifest {
    Manifest(CommonLabels(kind, owner)[InstanceSelector := Selecting(ns)][Body := ref], {})
  }

  function DashboardExtras(
    kind: Kind, folder: string, spec: Spec, target: string, ns: string, owner: string): seq<Extra>
  {
    [Extra(GrafanaDashboard, target + "-dashboard",
           Toggled(Monitored(kind, spec), Dashboard(kind, folder, ns, owner)), false)]
  }

  function PodMonitorExtras(
    kind: Kind, podLabel: string, folder: string, spec: Spec, target: string, ns: string, owner: string): seq<Extra>
  {
    [Extra(PodMonitor, target + "-podmonitor",
           Toggled(Monitored(kind, spec), PodObject(kind, podLabel, target, owner)), false)]
    + DashboardExtras(kind, folder, spec, target, ns, owner)
  }

  function RabbitMQExtras(spec: Spec, target: string, ns: string, owner: string): seq<Extra> {
    [Extra(Ingress, target + "-rabbitmq-ingress",
           Toggled(IsSet(RabbitMQ, spec, IngressField), IngressManifest(RabbitMQ, spec, owner)), false),
     Extra(ServiceMonitor, target + "-servicemonitor",
           Toggled(Monitored(RabbitMQ, spec), PodObject(RabbitMQ, "app.kubernetes.io/name", target, owner)), false)]
    + DashboardExtras(RabbitMQ, "RabbitMQ", spec, target, ns, owner)
  }

  function ExternalService(spec: Spec, target: string, owner: string): Manifest {
    var m := PodObject(Valkey, "valkey.io/cluster", target, owner);
    m.(fields := m.fields[Copied(Expose) := Read(Valkey, spec, Expose)])
  }

  function ValkeyExtras(spec: Spec, target: string, ns: string, owner: string): seq<Extra> {
    [Extra(Service, target + "-external",
           Toggled(IsSet(Valkey, spec, Expose), ExternalService(spec, target, owner)), false)]
    + PodMonitorExtras(Valkey, "valkey.io/cluster", "Valkey", spec, target, ns, owner)
  }

  function NodePool(spec: Spec, target: string, owner: string): Manifest {
    var m := Manifest(CommonLabels(Kafka, owner)[Label("strimzi.io/cluster") := Str(target)]
                        [Copied(Replicas) := Read(Kafka, spec, Replicas)]
                        [Copied(Storage) := Read(Kafka, spec, Storage)], {});
    if IsSet(Kafka, spec, Resources)
    then m.(fields := m.fields[Copied(Resources) := Read(Kafka, spec, Resources)])
    else m
  }

  function KafkaExtras(spec: Spec, target: string, ns: string, owner: string): seq<Extra> {
    [Extra(KafkaNodePool, target + "-dual-role", Some(NodePool(spec, target, owner)), false)]
    + PodMonitorExtras(Kafka, "strimzi.io/cluster", "Kafka", spec, target, ns, owner)
  }

  function GrafanaExtras(spec: Spec, target: string, ns: string, owner: string): seq<Extra> {
    [Extra(GrafanaDatasource, target + "-prometheus",
           Some(Datasource(Grafana, Read(Grafana, spec, PrometheusRef), ns, owner)), false),
     Extra(GrafanaDatasource, target + "-loki",
           Toggled(IsSet(Grafana, spec, LokiRef),
                   Datasource(Grafana, Read(Grafana, spec, LokiRef), ns, owner)), false)]
  }

  function WebService(spec: Spec, target: string, owner: string): Manifest {
    var m := PodObject(Prometheus, "operator.prometheus.io/name", target, owner);
    if IsSet(Prometheus, spec, Expose)
    then m.(fields := m.fields[Copied(Expose) := Read(Prometheus, spec, Expose)])
    else m
  }

  /** The ServiceAccount, Role and RoleBinding the Prometheus pods scrape under. */
  function ScrapeRBACExtras(target: string, owner: string): seq<Extra> {
    [Extra(ServiceAccount, target, Some(Manifest(CommonLabels(Prometheus, owner), {})), false),
     Extra(Role, target, Some(Manifest(CommonLabels(Prometheus, owner)[Body := Str("rules")], {})), false),
     Extra(RoleBinding, target, Some(Manifest(CommonLabels(Prometheus, owner)[Body := Str(target)], {})), false)]
  }

  function PrometheusExtras(spec: Spec, target: string, ns: string, owner: string): seq<Extra> {
    [Extra(Service, target + "-web", Some(WebService(spec, target, owner)), false),
     Extra(Ingress, target + "-prometheus-ingress",
           Toggled(IsSet(Prometheus, spec, IngressField), IngressManifest(Prometheus, spec, owner)), false)]
    + ScrapeRBACExtras(target, owner)
  }

  /** The component suffixes of the PVC-backed StatefulSets. */
  const COMPONENTS: seq<string> := ["ingester", "compactor", "index-gateway"]

  function FsGroupExtra(target: string, component: string): Extra {
    Extra(StatefulSet, target + "-" + component, Some(FS_GROUP_PATCH), true)
  }

  function LokiExtras(target: string): seq<Extra> {
    seq(|COMPONENTS|, i requires 0 <= i < |COMPONENTS| => FsGroupExtra(target, COMPONENTS[i]))
  }

  /** Everything the adapter lists for a custom resource; adapters without auxiliary
      objects list nothing. */
  function ExtraResources(kind: Kind, spec: Spec, target: string, ns: string, owner: string): seq<Extra> {
    match kind
    case Postgres => DashboardExtras(Postgres, "CloudNativePG", spec, target, ns, owner)
    case MariaDB => DashboardExtras(MariaDB, "MariaDB", spec, target, ns, owner)
    case Valkey => ValkeyExtras(spec, target, ns, owner)
    case RabbitMQ => RabbitMQExtras(spec, target, ns, owner)
    case Kafka => KafkaExtras(spec, target, ns, owner)
    case MongoDB => PodMonitorExtras(MongoDB, "app.kubernetes.io/instance", "MongoDB", spec, target, ns, owner)
    case Grafana => GrafanaExtras(spec, target, ns, owner)
    case Prometheus => PrometheusExtras(spec, target, ns, owner)
    case Loki => LokiExtras(target)
    case Alloy => []
  }

  /** The Loki adapter's loop over its components. */
  method BuildLokiExtras(target: string) returns (extras: seq<Extra>)
    ensures extras == LokiExtras(target)
  {
    extras := [];
    for i := 0 to |COMPONENTS|
      invariant extras == LokiExtras(target)[..i]
    {
      extras := extras + [FsGroupExtra(target, COMPONENTS[i])];
    }
  }

  /** The Valkey adapter's list, appended to across its two independent toggles. */
  method BuildValkeyExtras(spec: Spec, target: string, ns: string, owner: string) returns (extras: seq<Extra>)
    ensures extras == ValkeyExtras(spec, target, ns, owner)
  {
    extras := [];
    if !IsSet(Valkey, spec, Expose) {
      extras := extras + [Extra(Service, target + "-external", None, false)];
    } else {
      extras := extras + [Extra(Service, target + "-external", Some(ExternalService(spec, target, owner)), false)];
    }
    if !Monitored(Valkey, spec) {
      extras := extras + [Extra(PodMonitor, target + "-podmonitor", None, false),
                          Extra(GrafanaDashboard, target + "-dashboard", None, false)];
      return;
    }
    extras := extras + [Extra(PodMonitor, target + "-podmonitor",
                              Some(PodObject(Valkey, "valkey.io/cluster", target, owner)), false),
                        Extra(GrafanaDashboard, target + "-dashboard",
                              Some(Dashboard(Valkey, "Valkey", ns, owner)), false)];
  }

  // ---------------------------------------------------------------- selectors

  const PVC_NAME := "app.kubernetes.io/name"
  const PVC_INSTANCE := "app.kubernetes.io/instance"

  /** The empty selector stands for an adapter without PVC cleanup. */
  function PVCLabelSelector(kind: Kind, target: string): map<string, string> {
    if kind == Loki
    then map[PVC_NAME := "lokistack", PVC_INSTANCE := target, MANAGED_BY := "lokistack-controller"]
    else map[]
  }

  /** Does an object carrying these fields match an instance selector? */
  predicate Selects(selector: Value, fields: map<Path, Value>) {
    selector.Labels? &&
    forall l :: l in selector.labels ==>
      Label(l) in fields && fields[Label(l)] == Str(selector.labels[l])
  }

  function TargetPins(kind: Kind): set<string> {
    if kind == MongoDB then {PSMDB_FINALIZER} else {}
  }

  predicate SelectsFrom(e: Extra, ns: string) {
    e.desired.Some? && e.gvk in {GrafanaDashboard, GrafanaDatasource} ==>
      InstanceSelector in e.desired.value.fields && e.desired.value.fields[InstanceSelector] == Selecting(ns)
  }

  lemma BuiltDashboard(kind: Kind, folder: string, spec: Spec, target: string, ns: string, owner: string)
    ensures SelectsFrom(DashboardExtras(kind, folder, spec, target, ns, owner)[0], ns)
  {
  }

  lemma BuiltDatasources(spec: Spec, target: string, ns: string, owner: string)
    ensures forall e :: e in GrafanaExtras(spec, target, ns, owner) ==> SelectsFrom(e, ns)
  {
  }

  lemma ValkeySelectors(spec: Spec, target: string, ns: string, owner: string)
    ensures forall e :: e in ValkeyExtras(spec, target, ns, owner) ==> SelectsFrom(e, ns)
  {
    BuiltDashboard(Valkey, "Valkey", spec, target, ns, owner);
  }

  lemma RabbitMQSelectors(spec: Spec, target: string, ns: string, owner: string)
    ensures forall e :: e in RabbitMQExtras(spec, target, ns, owner) ==> SelectsFrom(e, ns)
  {
    BuiltDashboard(RabbitMQ, "RabbitMQ", spec, target, ns, owner);
  }

  lemma KafkaSelectors(spec: Spec, target: string, ns: string, owner: string)
    ensures forall e :: e in KafkaExtras(spec, target, ns, owner) ==> SelectsFrom(e, ns)
  {
    BuiltDashboard(Kafka, "Kafka", spec, target, ns, owner);
  }

  lemma BuiltSelector(kind: Kind, spec: Spec, target: string, ns: string, owner: string, e: Extra)
    requires e in ExtraResources(kind, spec, target, ns, owner)
    ensures SelectsFrom(e, ns)
  {
    match kind
    case Grafana => BuiltDatasources(spec, target, ns, owner);
    case Postgres => BuiltDashboard(kind, "CloudNativePG", spec, target, ns, owner);
    case MariaDB => BuiltDashboard(kind, "MariaDB", spec, target, ns, owner);
    case Valkey => ValkeySelectors(spec, target, ns, owner);
    case RabbitMQ => RabbitMQSelectors(spec, target, ns, owner);
    case Kafka => KafkaSelectors(spec, target, ns, owner);
    case MongoDB => BuiltDashboard(kind, "MongoDB", spec, target, ns, owner);
    case Prometheus | Loki | Alloy =>
  }

  lemma GrafanaScope(spec: Spec, ns: string, owner: string)
    ensures var fields := BuildManifest(Grafana, spec, ns, owner).fields;
            Label(SCOPE) in fields && fields[Label(SCOPE)] == Str(ns)
  {
  }

  lemma SelectsByScope(ns: string, fields: map<Path, Value>, scope: string)
    requires Label(SCOPE) in fields && fields[Label(SCOPE)] == Str(scope)
    ensures Selects(Selecting(ns), fields) <==> ns == scope
  {
    assert SCOPE in Selecting(ns).labels;
  }

  /** Every dashboard or datasource any adapter builds for namespace ns selects the Grafana
      built for ns and no Grafana built for another namespace. */
  lemma SelectorMatchesOwnNamespaceOnly(
    kind: Kind, spec: Spec, target: string, ns: string, owner: string, e: Extra,
    grafanaSpec: Spec, grafanaNs: string, grafanaName: string)
    requires e in ExtraResources(kind, spec, target, ns, owner)
    requires e.desired.Some? && e.gvk in {GrafanaDashboard, GrafanaDatasource}
    ensures InstanceSelector in e.desired.value.fields
    ensures Selects(e.desired.value.fields[InstanceSelector],
                    BuildManifest(Grafana, grafanaSpec, grafanaNs, grafanaName).fields)
            <==> ns == grafanaNs
  {
    BuiltSelector(kind, spec, target, ns, owner, e);
    GrafanaScope(grafanaSpec, grafanaNs, grafanaName);
    SelectsByScope(ns, BuildManifest(Grafana, grafanaSpec, grafanaNs, grafanaName).fields, grafanaNs);
  }
}
