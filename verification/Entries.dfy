/** What the ten adapters list, said of the stored spec itself: which auxiliary object is
    wanted when, and what is on it. */
module Entries {
  import opened Kinds
  import opened Specs
  import opened Manifests
  import opened Naming
  import opened Adapters
  import opened Footprint

  // ---------------------------------------------------------------- the tables

  /** The auxiliary objects of each kind, by the suffix of their names. */
  predicate Has(kind: Kind, gvk: Gvk, suffix: string) {
    match gvk
    case GrafanaDashboard => suffix == "-dashboard" && kind in {Postgres, MariaDB, Valkey, RabbitMQ, Kafka, MongoDB}
    case PodMonitor => suffix == "-podmonitor" && kind in {Valkey, Kafka, MongoDB}
    case ServiceMonitor => suffix == "-servicemonitor" && kind == RabbitMQ
    case Ingress =>
      || (suffix == "-rabbitmq-ingress" && kind == RabbitMQ)
      || (suffix == "-prometheus-ingress" && kind == Prometheus)
    case Service => (suffix == "-external" && kind == Valkey) || (suffix == "-web" && kind == Prometheus)
    case GrafanaDatasource => (suffix == "-prometheus" || suffix == "-loki") && kind == Grafana
    case KafkaNodePool => suffix == "-dual-role" && kind == Kafka
    case ServiceAccount | Role | RoleBinding => suffix == "" && kind == Prometheus
    case Target(_) | StatefulSet | Secret => false
  }

  /** When each is wanted. */
  predicate Wants(kind: Kind, gvk: Gvk, suffix: string, spec: Spec) {
    match gvk
    case GrafanaDashboard | PodMonitor | ServiceMonitor =>
      EnablePodMonitor in spec && spec[EnablePodMonitor] == Bool(true)
    case Ingress => IngressField in spec && spec[IngressField] != Null
    case Service => kind == Prometheus || (Expose in spec && spec[Expose] != Null)
    case GrafanaDatasource => suffix == "-prometheus" || (LokiRef in spec && spec[LokiRef] != Str(""))
    case _ => true
  }

  /** Every object says who manages it and which resource it belongs to. */
  predicate Marked(fields: map<Path, Value>, kind: Kind, owner: string) {
    && Label("app.kubernetes.io/managed-by") in fields
    && fields[Label("app.kubernetes.io/managed-by")] == Str(FieldManager(kind))
    && Label("paas.cncp.nl/owner") in fields && fields[Label("paas.cncp.nl/owner")] == Str(owner)
  }

  predicate Carries(fields: map<Path, Value>, p: Path, v: Value) {
    p in fields && fields[p] == v
  }

  /** The pods a monitor or Service of a kind is for. */
  function PodsOf(kind: Kind, target: string): map<string, string> {
    match kind
    case Valkey => map["valkey.io/cluster" := target]
    case RabbitMQ => map["app.kubernetes.io/name" := target]
    case Kafka => map["strimzi.io/cluster" := target]
    case MongoDB => map["app.kubernetes.io/instance" := target, "app.kubernetes.io/component" := "mongod"]
    case Prometheus => map["operator.prometheus.io/name" := target]
    case _ => map[]
  }

  /** What a wanted object carries, besides the marks. */
  predicate Tells(
    kind: Kind, gvk: Gvk, suffix: string, fields: map<Path, Value>, spec: Spec, target: string, ns: string)
  {
    var scope := Labels(map["dashboards.paas.cncp.nl/scope" := ns]);
    match gvk
    case GrafanaDashboard => Carries(fields, InstanceSelector, scope)
    case GrafanaDatasource =>
      && Carries(fields, InstanceSelector, scope)
      && (suffix == "-prometheus" && PrometheusRef in spec ==> Carries(fields, Body, spec[PrometheusRef]))
      && (suffix == "-loki" && LokiRef in spec ==> Carries(fields, Body, spec[LokiRef]))
    case PodMonitor | ServiceMonitor => Carries(fields, PodSelector, Labels(PodsOf(kind, target)))
    case Service =>
      && Carries(fields, PodSelector, Labels(PodsOf(kind, target)))
      && (Expose in spec && spec[Expose] != Null ==> Carries(fields, Copied(Expose), spec[Expose]))
    case Ingress => IngressField in spec ==> Carries(fields, Copied(IngressField), spec[IngressField])
    case KafkaNodePool =>
      && Carries(fields, Label("strimzi.io/cluster"), Str(target))
      && (Replicas in spec ==> Carries(fields, Copied(Replicas), spec[Replicas]))
      && (Storage in spec ==> Carries(fields, Copied(Storage), spec[Storage]))
      && (Resources in spec && spec[Resources] != Null ==> Carries(fields, Copied(Resources), spec[Resources]))
    case RoleBinding => Carries(fields, Body, Str(target))
    case _ => true
  }

  // ---------------------------------------------------------------- the adapters meet them

  /** One entry of a list: wanted when the table says so, without finalizers, marked, and with
      what the table says on it. */
  predicate Meets(kind: Kind, e: Extra, id: ExtraId, spec: Spec, target: string, ns: string, owner: string) {
    && (e.desired.Some? <==> Wants(kind, id.gvk, id.suffix, spec))
    && (e.desired.Some? ==>
          && e.desired.value.pins == {} && Marked(e.desired.value.fields, kind, owner)
          && Tells(kind, id.gvk, id.suffix, e.desired.value.fields, spec, target, ns))
  }

  predicate AllMeet(kind: Kind, extras: seq<Extra>, spec: Spec, target: string, ns: string, owner: string) {
    var ids := ExtraIds(kind);
    |extras| == |ids| && forall i :: 0 <= i < |ids| ==> Meets(kind, extras[i], ids[i], spec, target, ns, owner)
  }

  lemma LabelsDiffer()
    ensures MANAGED_BY == "app.kubernetes.io/managed-by" && OWNER == "paas.cncp.nl/owner"
    ensures MANAGED_BY != OWNER && MANAGED_BY != "strimzi.io/cluster" && OWNER != "strimzi.io/cluster"
    ensures MANAGED_BY != SCOPE && OWNER != SCOPE && SCOPE == "dashboards.paas.cncp.nl/scope"
  {
    assert MANAGED_BY[0] == 'a' && OWNER[0] == 'p' && SCOPE[0] == 'd' && "strimzi.io/cluster"[0] == 's';
  }

  lemma DashboardMeets(kind: Kind, folder: string, spec: Spec, target: string, ns: string, owner: string)
    requires kind in {Postgres, MariaDB, Valkey, RabbitMQ, Kafka, MongoDB}
    ensures Meets(kind, DashboardExtras(kind, folder, spec, target, ns, owner)[0],
                  ExtraId(GrafanaDashboard, "-dashboard", false), spec, target, ns, owner)
  {
    LabelsDiffer();
    assert Schema(kind)[EnablePodMonitor].zero == Bool(false);
  }

  lemma PodMonitorMeets(
    kind: Kind, podLabel: string, folder: string, spec: Spec, target: string, ns: string, owner: string)
    requires kind in {Valkey, Kafka, MongoDB}
    requires PodLabels(kind, podLabel, target) == PodsOf(kind, target)
    ensures Meets(kind, PodMonitorExtras(kind, podLabel, folder, spec, target, ns, owner)[0],
                  ExtraId(PodMonitor, "-podmonitor", false), spec, target, ns, owner)
  {
    LabelsDiffer();
    assert Schema(kind)[EnablePodMonitor].zero == Bool(false);
  }

  lemma ValkeyMeets(spec: Spec, target: string, ns: string, owner: string)
    ensures AllMeet(Valkey, ValkeyExtras(spec, target, ns, owner), spec, target, ns, owner)
  {
    LabelsDiffer();
    DashboardMeets(Valkey, "Valkey", spec, target, ns, owner);
    PodMonitorMeets(Valkey, "valkey.io/cluster", "Valkey", spec, target, ns, owner);
  }

  lemma IngressMeets(kind: Kind, suffix: string, spec: Spec, target: string, ns: string, owner: string)
    requires kind in {RabbitMQ, Prometheus}
    ensures Meets(kind, Extra(Ingress, target + suffix, Toggled(IsSet(kind, spec, IngressField),
                                                                IngressManifest(kind, spec, owner)), false),
                  ExtraId(Ingress, suffix, false), spec, target, ns, owner)
  {
    LabelsDiffer();
    assert Schema(kind)[IngressField].zero == Null;
  }

  lemma RabbitMQMeets(spec: Spec, target: string, ns: string, owner: string)
    ensures AllMeet(RabbitMQ, RabbitMQExtras(spec, target, ns, owner), spec, target, ns, owner)
  {
    LabelsDiffer();
    IngressMeets(RabbitMQ, "-rabbitmq-ingress", spec, target, ns, owner);
    DashboardMeets(RabbitMQ, "RabbitMQ", spec, target, ns, owner);
  }

  lemma NodePoolMeets(spec: Spec, target: string, ns: string, owner: string)
    ensures Meets(Kafka, KafkaExtras(spec, target, ns, owner)[0], ExtraId(KafkaNodePool, "-dual-role", false),
                  spec, target, ns, owner)
  {
    LabelsDiffer();
  }

  lemma KafkaMeets(spec: Spec, target: string, ns: string, owner: string)
    ensures AllMeet(Kafka, KafkaExtras(spec, target, ns, owner), spec, target, ns, owner)
  {
    NodePoolMeets(spec, target, ns, owner);
    DashboardMeets(Kafka, "Kafka", spec, target, ns, owner);
    PodMonitorMeets(Kafka, "strimzi.io/cluster", "Kafka", spec, target, ns, owner);
  }

  lemma MongoDBMeets(spec: Spec, target: string, ns: string, owner: string)
    ensures AllMeet(MongoDB,
                    PodMonitorExtras(MongoDB, "app.kubernetes.io/instance", "MongoDB", spec, target, ns, owner),
                    spec, target, ns, owner)
  {
    DashboardMeets(MongoDB, "MongoDB", spec, target, ns, owner);
    PodMonitorMeets(MongoDB, "app.kubernetes.io/instance", "MongoDB", spec, target, ns, owner);
  }

  lemma GrafanaMeets(spec: Spec, target: string, ns: string, owner: string)
    ensures AllMeet(Grafana, GrafanaExtras(spec, target, ns, owner), spec, target, ns, owner)
  {
    LabelsDiffer();
    assert "-prometheus"[1] != "-loki"[1];
  }

  lemma WebServiceMeets(spec: Spec, target: string, ns: string, owner: string)
    ensures Meets(Prometheus, PrometheusExtras(spec, target, ns, owner)[0], ExtraId(Service, "-web", false),
                  spec, target, ns, owner)
  {
    LabelsDiffer();
  }

  lemma RBACMeets(spec: Spec, target: string, ns: string, owner: string, i: nat)
    requires i < 3
    ensures Meets(Prometheus, ScrapeRBACExtras(target, owner)[i], ExtraIds(Prometheus)[i + 2], spec, target, ns, owner)
  {
    LabelsDiffer();
  }

  lemma PrometheusMeets(spec: Spec, target: string, ns: string, owner: string)
    ensures AllMeet(Prometheus, PrometheusExtras(spec, target, ns, owner), spec, target, ns, owner)
  {
    WebServiceMeets(spec, target, ns, owner);
    IngressMeets(Prometheus, "-prometheus-ingress", spec, target, ns, owner);
    forall i | 2 <= i < 5
      ensures Meets(Prometheus, PrometheusExtras(spec, target, ns, owner)[i], ExtraIds(Prometheus)[i],
                    spec, target, ns, owner)
    {
      RBACMeets(spec, target, ns, owner, i - 2);
      assert PrometheusExtras(spec, target, ns, owner)[i] == ScrapeRBACExtras(target, owner)[i - 2];
    }
  }

  /** Every adapter but Loki's, whose objects are patched only, meets the tables for every spec. */
  lemma ExtrasMeet(kind: Kind, spec: Spec, target: string, ns: string, owner: string)
    requires kind != Loki
    ensures AllMeet(kind, ExtraResources(kind, spec, target, ns, owner), spec, target, ns, owner)
  {
    match kind
    case Postgres => DashboardMeets(Postgres, "CloudNativePG", spec, target, ns, owner);
    case MariaDB => DashboardMeets(MariaDB, "MariaDB", spec, target, ns, owner);
    case Valkey => ValkeyMeets(spec, target, ns, owner);
    case RabbitMQ => RabbitMQMeets(spec, target, ns, owner);
    case Kafka => KafkaMeets(spec, target, ns, owner);
    case MongoDB => MongoDBMeets(spec, target, ns, owner);
    case Grafana => GrafanaMeets(spec, target, ns, owner);
    case Prometheus => PrometheusMeets(spec, target, ns, owner);
    case Alloy =>
  }

  lemma HasListed(kind: Kind, gvk: Gvk, suffix: string)
    requires Has(kind, gvk, suffix)
    ensures ExtraId(gvk, suffix, false) in ExtraIds(kind)
  {
    match kind
    case Postgres => assert ExtraIds(kind)[0] in ExtraIds(kind);
    case MariaDB => assert ExtraIds(kind)[0] in ExtraIds(kind);
    case Valkey => assert forall i :: 0 <= i < 3 ==> ExtraIds(kind)[i] in ExtraIds(kind);
    case RabbitMQ => assert forall i :: 0 <= i < 3 ==> ExtraIds(kind)[i] in ExtraIds(kind);
    case Kafka => assert forall i :: 0 <= i < 3 ==> ExtraIds(kind)[i] in ExtraIds(kind);
    case MongoDB => assert forall i :: 0 <= i < 2 ==> ExtraIds(kind)[i] in ExtraIds(kind);
    case Grafana => assert forall i :: 0 <= i < 2 ==> ExtraIds(kind)[i] in ExtraIds(kind);
    case Prometheus => assert forall i :: 0 <= i < 5 ==> ExtraIds(kind)[i] in ExtraIds(kind);
    case Loki | Alloy =>
  }

  /** The tables are complete: an adapter lists an object, to apply or to prune it, exactly when
      the first has it. */
  lemma HasExactly(kind: Kind, gvk: Gvk, suffix: string)
    ensures Has(kind, gvk, suffix) <==> ExtraId(gvk, suffix, false) in ExtraIds(kind)
  {
    if ExtraId(gvk, suffix, false) in ExtraIds(kind) {
      SuffixTable(kind, ExtraId(gvk, suffix, false));
      TableKinds(kind, gvk, suffix);
    }
    if Has(kind, gvk, suffix) {
      HasListed(kind, gvk, suffix);
    }
  }

  lemma TableKinds(kind: Kind, gvk: Gvk, suffix: string)
    requires ExtraId(gvk, suffix, false) in ExtraIds(kind)
    ensures gvk == GrafanaDashboard ==> kind in {Postgres, MariaDB, Valkey, RabbitMQ, Kafka, MongoDB}
    ensures gvk == PodMonitor ==> kind in {Valkey, Kafka, MongoDB}
  {
  }

  // ---------------------------------------------------------------- targets

  /** Every field a resource's spec sets, and what becomes of it: it is copied to the target,
      or to an auxiliary object, or names what a datasource points at. */
  predicate ReachesTarget(kind: Kind, f: Field) {
    match kind
    case Postgres | MariaDB | MongoDB | Loki | Alloy => true
    case Valkey => f != Expose
    case RabbitMQ => f != IngressField && f != EnablePodMonitor
    case Kafka => f in {Version, Expose, EnablePodMonitor}
    case Grafana => f != PrometheusRef && f != LokiRef
    case Prometheus => f != IngressField && f != Expose
  }

  predicate SetIn(spec: Spec, kind: Kind, f: Field) {
    f in spec && f in Schema(kind) && spec[f] != Schema(kind)[f].zero
  }

  lemma ClusterFields(kind: Kind, f: Field)
    requires kind in {Postgres, MariaDB, Valkey, RabbitMQ, Kafka} && f in Schema(kind) && ReachesTarget(kind, f)
    ensures f in AlwaysCopied(kind) + CopiedWhenSet(kind)
  {
  }

  lemma OtherFields(kind: Kind, f: Field)
    requires kind in {MongoDB, Grafana, Prometheus, Loki, Alloy} && f in Schema(kind) && ReachesTarget(kind, f)
    ensures f in AlwaysCopied(kind) + CopiedWhenSet(kind)
  {
  }

  /** A set field that reaches the target is on it, as it is in the spec. */
  lemma TargetCarries(kind: Kind, spec: Spec, ns: string, owner: string, f: Field)
    requires SetIn(spec, kind, f) && ReachesTarget(kind, f)
    ensures Carries(BuildManifest(kind, spec, ns, owner).fields, Copied(f), spec[f])
  {
    match kind
    case Postgres | MariaDB | Valkey | RabbitMQ | Kafka => ClusterFields(kind, f);
    case MongoDB | Grafana | Prometheus | Loki | Alloy => OtherFields(kind, f);
  }

  /** Every target is marked; MongoDB's asks for the finalizer that has its vendor clean up. */
  lemma TargetMarked(kind: Kind, spec: Spec, ns: string, owner: string)
    ensures Marked(BuildManifest(kind, spec, ns, owner).fields, kind, owner)
    ensures BuildManifest(kind, spec, ns, owner).pins
            == if kind == MongoDB then {"percona.com/delete-psmdb-pvc"} else {}
  {
    LabelsDiffer();
  }
}
