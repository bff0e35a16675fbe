/** The keys a custom resource manages. They depend on its kind, namespace and name only,
    never on its spec, and two resources share one only in one exactly known case. */
module Footprint {
  import opened Kinds
  import opened Specs
  import opened Manifests
  import opened Naming
  import opened Adapters

  function ExtraIds(kind: Kind): seq<ExtraId> {
    match kind
    case Postgres | MariaDB => [ExtraId(GrafanaDashboard, "-dashboard", false)]
    case Valkey => [ExtraId(Service, "-external", false),
                    ExtraId(PodMonitor, "-podmonitor", false),
                    ExtraId(GrafanaDashboard, "-dashboard", false)]
    case RabbitMQ => [ExtraId(Ingress, "-rabbitmq-ingress", false),
                      ExtraId(ServiceMonitor, "-servicemonitor", false),
                      ExtraId(GrafanaDashboard, "-dashboard", false)]
    case Kafka => [ExtraId(KafkaNodePool, "-dual-role", false),
                   ExtraId(PodMonitor, "-podmonitor", false),
                   ExtraId(GrafanaDashboard, "-dashboard", false)]
    case MongoDB => [ExtraId(PodMonitor, "-podmonitor", false),
                     ExtraId(GrafanaDashboard, "-dashboard", false)]
    case Grafana => [ExtraId(GrafanaDatasource, "-prometheus", false),
                     ExtraId(GrafanaDatasource, "-loki", false)]
    case Prometheus => [ExtraId(Service, "-web", false),
                        ExtraId(Ingress, "-prometheus-ingress", false),
                        ExtraId(ServiceAccount, "", false),
                        ExtraId(Role, "", false),
                        ExtraId(RoleBinding, "", false)]
    case Loki => [ExtraId(StatefulSet, "-ingester", true),
                  ExtraId(StatefulSet, "-compactor", true),
                  ExtraId(StatefulSet, "-index-gateway", true)]
    case Alloy => []
  }

  lemma LokiIds(target: string)
    ensures Listed(LokiExtras(target), ExtraIds(Loki), target)
  {
    assert target + "-" + "ingester" == target + "-ingester";
    assert target + "-" + "compactor" == target + "-compactor";
    assert target + "-" + "index-gateway" == target + "-index-gateway";
    assert COMPONENTS[0] == "ingester" && COMPONENTS[1] == "compactor" && COMPONENTS[2] == "index-gateway";
  }

  lemma PrometheusIds(spec: Spec, target: string, ns: string, owner: string)
    ensures Listed(PrometheusExtras(spec, target, ns, owner), ExtraIds(Prometheus), target)
  {
    assert target + "" == target;
  }

  lemma GrafanaIds(spec: Spec, target: string, ns: string, owner: string)
    ensures Listed(GrafanaExtras(spec, target, ns, owner), ExtraIds(Grafana), target)
  {
  }

  lemma RabbitMQIds(spec: Spec, target: string, ns: string, owner: string)
    ensures Listed(RabbitMQExtras(spec, target, ns, owner), ExtraIds(RabbitMQ), target)
  {
  }

  lemma ValkeyIds(spec: Spec, target: string, ns: string, owner: string)
    ensures Listed(ValkeyExtras(spec, target, ns, owner), ExtraIds(Valkey), target)
  {
  }

  lemma KafkaIds(spec: Spec, target: string, ns: string, owner: string)
    ensures Listed(KafkaExtras(spec, target, ns, owner), ExtraIds(Kafka), target)
  {
  }

  /** What every adapter lists is its fixed identity list, whatever the spec. */
  lemma ExtrasHaveFixedIds(kind: Kind, spec: Spec, target: string, ns: string, owner: string)
    ensures Listed(ExtraResources(kind, spec, target, ns, owner), ExtraIds(kind), target)
  {
    match kind
    case Postgres | MariaDB | MongoDB | Alloy =>
    case Valkey => ValkeyIds(spec, target, ns, owner);
    case RabbitMQ => RabbitMQIds(spec, target, ns, owner);
    case Kafka => KafkaIds(spec, target, ns, owner);
    case Grafana => GrafanaIds(spec, target, ns, owner);
    case Prometheus => PrometheusIds(spec, target, ns, owner);
    case Loki => LokiIds(target);
  }

  /** Footprint stability: whatever was applied under an earlier spec is listed, at the same
      place, under the current one, so pruning and deletion reach it. */
  lemma FootprintStable(kind: Kind, past: Spec, now: Spec, target: string, ns: string, owner: string, i: nat)
    requires i < |ExtraResources(kind, past, target, ns, owner)|
    ensures i < |ExtraResources(kind, now, target, ns, owner)|
    ensures var a := ExtraResources(kind, past, target, ns, owner)[i];
            var b := ExtraResources(kind, now, target, ns, owner)[i];
            a.gvk == b.gvk && a.name == b.name && a.patchOnly == b.patchOnly
  {
    ExtrasHaveFixedIds(kind, past, target, ns, owner);
    ExtrasHaveFixedIds(kind, now, target, ns, owner);
  }

  /** The suffixes in use for each kind of auxiliary object, and who uses them. */
  lemma SuffixTable(kind: Kind, id: ExtraId)
    requires id in ExtraIds(kind)
    ensures match id.gvk
            case GrafanaDashboard => id.suffix == "-dashboard"
            case PodMonitor => id.suffix == "-podmonitor"
            case Service => (kind == Valkey && id.suffix == "-external") || (kind == Prometheus && id.suffix == "-web")
            case Ingress =>
              || (kind == RabbitMQ && id.suffix == "-rabbitmq-ingress")
              || (kind == Prometheus && id.suffix == "-prometheus-ingress")
            case GrafanaDatasource => kind == Grafana && id.suffix in {"-prometheus", "-loki"}
            case StatefulSet =>
              kind == Loki && id.patchOnly && id.suffix in {"-ingester", "-compactor", "-index-gateway"}
            case ServiceMonitor => kind == RabbitMQ && id.suffix == "-servicemonitor"
            case KafkaNodePool => kind == Kafka && id.suffix == "-dual-role"
            case ServiceAccount | Role | RoleBinding => kind == Prometheus && id.suffix == ""
            case Target(_) | Secret => false
    ensures id.patchOnly <==> id.gvk == StatefulSet
  {
  }

  lemma TailsApart()
    ensures Apart("-external", "-web") && Apart("-web", "-external")
    ensures Apart("-rabbitmq-ingress", "-prometheus-ingress") && Apart("-prometheus-ingress", "-rabbitmq-ingress")
    ensures Apart("-prometheus", "-loki") && Apart("-loki", "-prometheus")
    ensures Apart("-ingester", "-compactor") && Apart("-compactor", "-ingester")
    ensures Apart("-ingester", "-index-gateway") && Apart("-index-gateway", "-ingester")
    ensures Apart("-compactor", "-index-gateway") && Apart("-index-gateway", "-compactor")
  {
    var a, b := "-external", "-web";
    assert FromEnd(a, 1) == 'l' && FromEnd(b, 1) == 'b';
    a, b := "-rabbitmq-ingress", "-prometheus-ingress";
    assert FromEnd(a, 9) == 'q' && FromEnd(b, 9) == 's';
    a, b := "-prometheus", "-loki";
    assert FromEnd(a, 1) == 's' && FromEnd(b, 1) == 'i';
    a, b := "-ingester", "-compactor";
    assert FromEnd(a, 2) == 'e' && FromEnd(b, 2) == 'o';
    a, b := "-ingester", "-index-gateway";
    assert FromEnd(a, 1) == 'r' && FromEnd(b, 1) == 'y';
    a, b := "-compactor", "-index-gateway";
    assert FromEnd(a, 1) == 'r' && FromEnd(b, 1) == 'y';
  }

  /** Identities of one object kind either share their suffix or can never name one object. */
  lemma SuffixesEqualOrApart(kind1: Kind, id1: ExtraId, kind2: Kind, id2: ExtraId)
    requires id1 in ExtraIds(kind1) && id2 in ExtraIds(kind2) && id1.gvk == id2.gvk
    ensures id1.suffix == id2.suffix || Apart(id1.suffix, id2.suffix)
    ensures id1.suffix == id2.suffix ==> kind1 == kind2 || id1.gvk in {GrafanaDashboard, PodMonitor}
  {
    SuffixTable(kind1, id1);
    SuffixTable(kind2, id2);
    TailsApart();
    assert |"-external"| != |"-web"| && |"-rabbitmq-ingress"| != |"-prometheus-ingress"|;
  }

  lemma GvksDistinct(kind: Kind, i: nat, j: nat)
    requires kind != Grafana && kind != Loki
    requires i < |ExtraIds(kind)| && j < |ExtraIds(kind)| && i != j
    ensures ExtraIds(kind)[i].gvk != ExtraIds(kind)[j].gvk
  {
  }

  lemma LokiSuffixesApart(i: nat, j: nat)
    requires i < 3 && j < 3 && i != j
    ensures Apart(ExtraIds(Loki)[i].suffix, ExtraIds(Loki)[j].suffix)
  {
    TailsApart();
    var ids := ExtraIds(Loki);
    assert ids[0].suffix == "-ingester" && ids[1].suffix == "-compactor" && ids[2].suffix == "-index-gateway";
  }

  lemma GrafanaSuffixesApart()
    ensures Apart(ExtraIds(Grafana)[0].suffix, ExtraIds(Grafana)[1].suffix)
    ensures Apart(ExtraIds(Grafana)[1].suffix, ExtraIds(Grafana)[0].suffix)
  {
    TailsApart();
    assert ExtraIds(Grafana)[0].suffix == "-prometheus" && ExtraIds(Grafana)[1].suffix == "-loki";
  }

  lemma IdsApart(kind: Kind, i: nat, j: nat)
    requires i < |ExtraIds(kind)| && j < |ExtraIds(kind)| && i != j
    ensures ExtraIds(kind)[i].gvk != ExtraIds(kind)[j].gvk || Apart(ExtraIds(kind)[i].suffix, ExtraIds(kind)[j].suffix)
  {
    if kind == Grafana {
      GrafanaSuffixesApart();
    } else if kind == Loki {
      LokiSuffixesApart(i, j);
    } else {
      GvksDistinct(kind, i, j);
    }
  }

  lemma IdsWellNamed(kind: Kind)
    ensures WellNamed(ExtraIds(kind))
  {
    var ids := ExtraIds(kind);
    forall i, j | 0 <= i < |ids| && 0 <= j < |ids| && i != j
      ensures ids[i].gvk != ids[j].gvk || Apart(ids[i].suffix, ids[j].suffix)
    {
      IdsApart(kind, i, j);
    }
    forall i | 0 <= i < |ids| ensures !ids[i].gvk.Target? && (ids[i].patchOnly <==> ids[i].gvk == StatefulSet) {
      SuffixTable(kind, ids[i]);
    }
  }

  // ---------------------------------------------------------------- collisions

  ghost predicate Emits(kind: Kind, gvk: Gvk) {
    exists id :: id in ExtraIds(kind) && id.gvk == gvk
  }

  /** Two identities name one object exactly when object kind, namespace, name and suffix
      all agree. */
  lemma SameKey(k1: CrKey, id1: ExtraId, k2: CrKey, id2: ExtraId)
    requires id1 in ExtraIds(k1.kind) && id2 in ExtraIds(k2.kind)
    ensures IdKey(k1, id1) == IdKey(k2, id2) <==>
            (id1.gvk == id2.gvk && k1.ns == k2.ns && k1.name == k2.name && id1.suffix == id2.suffix)
  {
    if id1.gvk == id2.gvk && k1.name + id1.suffix == k2.name + id2.suffix {
      SuffixesEqualOrApart(k1.kind, id1, k2.kind, id2);
      if Apart(id1.suffix, id2.suffix) {
        ApartNamesDiffer(k1.name, id1.suffix, k2.name, id2.suffix);
      } else {
        SuffixCancels(k1.name, k2.name, id1.suffix);
      }
    }
  }

  /** The collision theorem, over all names: two custom resources manage a common object
      if and only if they have one name in one namespace, are of different kinds, and both
      emit a GrafanaDashboard or both emit a PodMonitor. */
  lemma CollisionExactly(k1: CrKey, k2: CrKey)
    requires k1 != k2
    ensures (exists key :: Manages(ExtraIds(k1.kind), k1, key) && Manages(ExtraIds(k2.kind), k2, key)) <==>
            (k1.ns == k2.ns && k1.name == k2.name && k1.kind != k2.kind &&
             ((Emits(k1.kind, GrafanaDashboard) && Emits(k2.kind, GrafanaDashboard)) ||
              (Emits(k1.kind, PodMonitor) && Emits(k2.kind, PodMonitor))))
  {
    if key :| Manages(ExtraIds(k1.kind), k1, key) && Manages(ExtraIds(k2.kind), k2, key) {
      CommonKey(k1, k2, key);
    }
    forall gvk | gvk in {GrafanaDashboard, PodMonitor} && Emits(k1.kind, gvk) && Emits(k2.kind, gvk) &&
                 k1.ns == k2.ns && k1.name == k2.name
      ensures exists key :: Manages(ExtraIds(k1.kind), k1, key) && Manages(ExtraIds(k2.kind), k2, key)
    {
      var id1 :| id1 in ExtraIds(k1.kind) && id1.gvk == gvk;
      var id2 :| id2 in ExtraIds(k2.kind) && id2.gvk == gvk;
      SuffixTable(k1.kind, id1);
      SuffixTable(k2.kind, id2);
      assert Manages(ExtraIds(k1.kind), k1, IdKey(k1, id1)) && Manages(ExtraIds(k2.kind), k2, IdKey(k2, id2));
    }
  }

  lemma CommonKey(k1: CrKey, k2: CrKey, key: Key)
    requires k1 != k2 && Manages(ExtraIds(k1.kind), k1, key) && Manages(ExtraIds(k2.kind), k2, key)
    ensures k1.ns == k2.ns && k1.name == k2.name && k1.kind != k2.kind
    ensures key.gvk in {GrafanaDashboard, PodMonitor} && Emits(k1.kind, key.gvk) && Emits(k2.kind, key.gvk)
  {
    if key == TargetKey(k1) {
      if key != TargetKey(k2) {
        var id :| id in ExtraIds(k2.kind) && key == IdKey(k2, id);
        SuffixTable(k2.kind, id);
      }
    } else {
      var id1 :| id1 in ExtraIds(k1.kind) && key == IdKey(k1, id1);
      SuffixTable(k1.kind, id1);
      var id2 :| id2 in ExtraIds(k2.kind) && key == IdKey(k2, id2);
      SameKey(k1, id1, k2, id2);
      SuffixesEqualOrApart(k1.kind, id1, k2.kind, id2);
    }
  }

  /** Custom resources with different names never manage a common object. */
  lemma DifferentNamesDisjoint(k1: CrKey, k2: CrKey, key: Key)
    requires k1.name != k2.name && Manages(ExtraIds(k1.kind), k1, key)
    ensures !Manages(ExtraIds(k2.kind), k2, key)
  {
    CollisionExactly(k1, k2);
  }
}
